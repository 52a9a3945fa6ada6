// The gateway's data state (control_link_gateway/src/state_machine.cpp).
module GatewayStateMachine {
  import opened Common
  import opened Messages
  import opened CommandValidator
  import opened SourceArbiter

  datatype DataState = Standby | Active | Degraded | SafeStop | Recovering | Error

  datatype StateReason =
    | ReasonNone | FirstValidCommand | SourceSwitch | SourceFallback | ReasonNoQualifiedSource
    | CriticalEndpointUnhealthy | CriticalQosMismatch | VehicleStateTimeout | VehicleSafeStop | VehicleFault
    | VehicleStateInvalid | ReasonClockInvalid | OutputTickOverrun | RecoveryComplete | InternalInvariant

  datatype Health = Health(
    criticalEndpointsHealthy: bool,
    criticalQosCompatible: bool,
    rosClockHealthy: bool,
    vehicleStateValid: bool,
    vehicleStateFresh: bool,
    vehicleReportsSafeStop: bool,
    vehicleReportsFault: bool,
    outputTickHealthy: bool,
    internalInvariantsHealthy: bool)

  const DEFAULT_HEALTH := Health(false, false, false, false, false, false, false, true, true)

  // recovery_health_is_healthy of the decision engine.
  predicate AllHealthy(h: Health) {
    && h.criticalEndpointsHealthy && h.criticalQosCompatible && h.rosClockHealthy
    && h.vehicleStateValid && h.vehicleStateFresh && !h.vehicleReportsSafeStop && !h.vehicleReportsFault
    && h.outputTickHealthy && h.internalInvariantsHealthy
  }

  datatype CandidateKey = CandidateKey(sourceId: string, generation: PublisherKey)

  // `result` is None for an accepted sample.
  datatype Evidence = Evidence(candidate: CandidateKey, result: Option<RejectReason>, healthEpoch: uint64)

  datatype Input = Input(health: Health, arbitration: Arbitration, evidences: seq<Evidence>, healthEpoch: uint64)

  datatype Decision = Decision(
    state: DataState,
    reason: StateReason,
    selected: Option<SourceSnapshot>,
    recoveryValidCount: nat,
    transitionSequence: nat)

  datatype MachineState = MachineState(
    state: DataState,
    reason: StateReason,
    candidate: Option<CandidateKey>,
    validCount: nat,
    recoveryEpoch: Option<uint64>,
    lastSelected: Option<string>,
    transitions: nat)

  const INITIAL := MachineState(Standby, ReasonNone, None, 0, None, None, 0)

  // The first condition that fails decides, and QoS comes last.
  function AssessHealth(h: Health): Option<(DataState, StateReason)> {
    if !h.internalInvariantsHealthy then Some((Error, InternalInvariant))
    else if !h.outputTickHealthy then Some((SafeStop, OutputTickOverrun))
    else if !h.criticalEndpointsHealthy then Some((SafeStop, CriticalEndpointUnhealthy))
    else if !h.rosClockHealthy then Some((SafeStop, ReasonClockInvalid))
    else if !h.vehicleStateValid then Some((SafeStop, VehicleStateInvalid))
    else if !h.vehicleStateFresh then Some((SafeStop, VehicleStateTimeout))
    else if h.vehicleReportsFault then Some((SafeStop, VehicleFault))
    else if h.vehicleReportsSafeStop then Some((SafeStop, VehicleSafeStop))
    else if !h.criticalQosCompatible then Some((Degraded, CriticalQosMismatch))
    else None
  }

  function SelectedId(selected: Option<SourceSnapshot>): Option<string> {
    if selected.Some? then Some(selected.value.sourceId) else None
  }

  // A repeated state and selection keep the reason and the transition count.
  function Moved(m: MachineState, next: DataState, reason: StateReason, selectedId: Option<string>): MachineState {
    if m.state != next || m.lastSelected != selectedId then
      m.(state := next, reason := reason, lastSelected := selectedId, transitions := m.transitions + 1)
    else m
  }

  // The only place that changes state, reason and selection.
  function Commit(m: MachineState, next: DataState, reason: StateReason, selected: Option<SourceSnapshot>)
    : (MachineState, Decision)
  {
    var moved := Moved(m, next, reason, SelectedId(selected));
    var after := if next.Recovering? then moved else moved.(candidate := None, validCount := 0);
    (after, Decision(after.state, after.reason, selected, after.validCount, after.transitions))
  }

  // What stops the tick before the source is looked at: state and reason.
  function SafetyGate(m: MachineState, input: Input): Option<(DataState, StateReason)> {
    var health := AssessHealth(input.health);
    if health.Some? && !health.value.0.Degraded? then health
    else if input.arbitration.selected.None? && !m.state.Standby? then Some((SafeStop, ReasonNoQualifiedSource))
    else if health.Some? then health
    else if input.arbitration.selected.None? then Some((Standby, m.reason))
    else None
  }

  // The state and reason an active gateway goes to.
  function ActiveRoute(m: MachineState, event: ArbitrationEvent): (DataState, StateReason) {
    match event
    case NoChange => (Active, m.reason)
    case Switch => (Active, SourceSwitch)
    case Fallback => (Active, SourceFallback)
    case FirstSelection => (Error, InternalInvariant)
    case NoQualifiedSource => (Error, InternalInvariant)
  }

  function RecoveryReason(m: MachineState, event: ArbitrationEvent): Option<StateReason> {
    match event
    case NoChange => Some(m.reason)
    case FirstSelection => Some(FirstValidCommand)
    case Switch => Some(SourceSwitch)
    case Fallback => Some(SourceFallback)
    case NoQualifiedSource => None
  }

  predicate Concerns(e: Evidence, candidate: CandidateKey, epoch: uint64) {
    e.healthEpoch == epoch && e.candidate == candidate
  }

  // The consecutive accepted samples of a candidate after some evidence; the
  // message field is 16 bits wide.
  function CountEvidence(count: nat, evidences: seq<Evidence>, candidate: CandidateKey, epoch: uint64): nat {
    if evidences == [] then count
    else
      var n := |evidences| - 1;
      var before := CountEvidence(count, evidences[..n], candidate, epoch);
      var e := evidences[n];
      if !Concerns(e, candidate, epoch) then before
      else if e.result.Some? then 0
      else if before < MAX_UINT16 then before + 1
      else before
  }

  function CandidateOf(s: SourceSnapshot): CandidateKey {
    CandidateKey(s.sourceId, s.generation)
  }

  // A new health epoch or another candidate starts the count over.
  function RecoveryContext(m: MachineState, epoch: uint64, candidate: CandidateKey): MachineState {
    var inEpoch := if m.recoveryEpoch == Some(epoch) then m
                   else m.(recoveryEpoch := Some(epoch), candidate := None, validCount := 0);
    if inEpoch.candidate == Some(candidate) then inEpoch
    else inEpoch.(candidate := Some(candidate), validCount := 0)
  }

  function Recover(m: MachineState, input: Input, samples: nat): (MachineState, Decision)
    requires input.arbitration.selected.Some?
  {
    var selected := input.arbitration.selected;
    var reason := RecoveryReason(m, input.arbitration.event);
    if reason.None? then
      Commit(if m.recoveryEpoch == Some(input.healthEpoch) then m
             else m.(recoveryEpoch := Some(input.healthEpoch), candidate := None, validCount := 0),
             Error, InternalInvariant, selected)
    else
      var candidate := CandidateOf(selected.value);
      var context := RecoveryContext(m, input.healthEpoch, candidate);
      var count := CountEvidence(context.validCount, input.evidences, candidate, input.healthEpoch);
      var counted := context.(validCount := count);
      if count >= samples then Commit(counted, Active, RecoveryComplete, selected)
      else Commit(counted, Recovering, reason.value, selected)
  }

  function Evaluate(m: MachineState, input: Input, samples: nat): (MachineState, Decision) {
    if m.state.Error? then Commit(m, Error, m.reason, input.arbitration.selected)
    else
      var gate := SafetyGate(m, input);
      if gate.Some? then Commit(m, gate.value.0, gate.value.1, input.arbitration.selected)
      else if m.state.Active? then
        var route := ActiveRoute(m, input.arbitration.event);
        Commit(m, route.0, route.1, input.arbitration.selected)
      else Recover(m, input, samples)
  }

  class StateMachine {
    const recoveryValidSamples: nat
    var state: DataState
    var reason: StateReason
    var candidate: Option<CandidateKey>
    var validCount: nat
    var recoveryEpoch: Option<uint64>
    var lastSelectedSourceId: Option<string>
    var transitionSequence: nat

    ghost function State(): MachineState
      reads this
    {
      MachineState(state, reason, candidate, validCount, recoveryEpoch, lastSelectedSourceId, transitionSequence)
    }

    constructor (recoveryValidSamples: nat)
      ensures this.recoveryValidSamples == recoveryValidSamples && State() == INITIAL
    {
      this.recoveryValidSamples := recoveryValidSamples;
      state, reason, candidate, validCount := Standby, ReasonNone, None, 0;
      recoveryEpoch, lastSelectedSourceId, transitionSequence := None, None, 0;
    }

    method MoveTo(next: DataState, transitionReason: StateReason, nextSelected: Option<string>)
      modifies this
      ensures State() == Moved(old(State()), next, transitionReason, nextSelected)
    {
      if state != next || lastSelectedSourceId != nextSelected {
        state, reason, lastSelectedSourceId := next, transitionReason, nextSelected;
        transitionSequence := transitionSequence + 1;
      }
    }

    method CommitDecision(next: DataState, transitionReason: StateReason, selected: Option<SourceSnapshot>)
      returns (d: Decision)
      modifies this
      ensures (State(), d) == Commit(old(State()), next, transitionReason, selected)
    {
      MoveTo(next, transitionReason, if selected.Some? then Some(selected.value.sourceId) else None);
      if !next.Recovering? {
        candidate, validCount := None, 0;
      }
      return Decision(state, reason, selected, validCount, transitionSequence);
    }

    method CountEvidences(evidences: seq<Evidence>, key: CandidateKey, epoch: uint64)
      modifies `validCount
      ensures validCount == CountEvidence(old(validCount), evidences, key, epoch)
    {
      for i := 0 to |evidences|
        invariant validCount == CountEvidence(old(validCount), evidences[..i], key, epoch)
      {
        assert evidences[..i + 1][..i] == evidences[..i];
        var e := evidences[i];
        if e.healthEpoch != epoch || e.candidate != key {
          continue;
        }
        if e.result.Some? {
          validCount := 0;
          continue;
        }
        if validCount < MAX_UINT16 {
          validCount := validCount + 1;
        }
      }
      assert evidences[..|evidences|] == evidences;
    }

    method EvaluateRecovery(input: Input) returns (d: Decision)
      requires input.arbitration.selected.Some?
      modifies this
      ensures (State(), d) == Recover(old(State()), input, recoveryValidSamples)
    {
      if recoveryEpoch.None? || recoveryEpoch.value != input.healthEpoch {
        recoveryEpoch := Some(input.healthEpoch);
        candidate, validCount := None, 0;
      }
      var recoveryReason := match input.arbitration.event
        case NoChange => Some(reason)
        case FirstSelection => Some(FirstValidCommand)
        case Switch => Some(SourceSwitch)
        case Fallback => Some(SourceFallback)
        case NoQualifiedSource => None;
      if recoveryReason.None? {
        d := CommitDecision(Error, InternalInvariant, input.arbitration.selected);
        return;
      }
      var key := CandidateOf(input.arbitration.selected.value);
      if candidate.None? || candidate.value != key {
        candidate, validCount := Some(key), 0;
      }
      CountEvidences(input.evidences, key, input.healthEpoch);
      if validCount >= recoveryValidSamples {
        d := CommitDecision(Active, RecoveryComplete, input.arbitration.selected);
      } else {
        d := CommitDecision(Recovering, recoveryReason.value, input.arbitration.selected);
      }
    }

    method EvaluateTick(input: Input) returns (d: Decision)
      modifies this
      ensures (State(), d) == Evaluate(old(State()), input, recoveryValidSamples)
    {
      if state.Error? {
        d := CommitDecision(state, reason, input.arbitration.selected);
        return;
      }
      var gate := SafetyGate(MachineState(state, reason, candidate, validCount, recoveryEpoch, lastSelectedSourceId,
                                          transitionSequence), input);
      if gate.Some? {
        d := CommitDecision(gate.value.0, gate.value.1, input.arbitration.selected);
        return;
      }
      if state.Active? {
        var route := ActiveRoute(MachineState(state, reason, candidate, validCount, recoveryEpoch,
                                              lastSelectedSourceId, transitionSequence), input.arbitration.event);
        d := CommitDecision(route.0, route.1, input.arbitration.selected);
        return;
      }
      d := EvaluateRecovery(input);
    }
  }

  // ------------------------------------------------------------ properties

  // The gateway is active only with a source and with every health condition
  // met, and error is final.
  lemma ActiveIsHealthy(m: MachineState, input: Input, samples: nat)
    ensures var (after, d) := Evaluate(m, input, samples);
            && d.state == after.state && d.selected == input.arbitration.selected
            && (d.state.Active? ==> input.arbitration.selected.Some? && AllHealthy(input.health))
            && (m.state.Error? ==> d.state.Error?)
            && (input.arbitration.selected.None? ==> !d.state.Recovering? && (d.state.Degraded? ==> m.state.Standby?))
  {
  }

  // A gateway that was not active becomes active only when the count reaches
  // the required samples, and what is counted is the tail of accepted samples
  // of the selected candidate in the current health epoch.
  lemma ActivationNeedsEvidence(m: MachineState, input: Input, samples: nat)
    requires !m.state.Active? && Evaluate(m, input, samples).1.state.Active?
    ensures input.arbitration.selected.Some?
    ensures var key := CandidateOf(input.arbitration.selected.value);
            var carried := if m.recoveryEpoch == Some(input.healthEpoch) && m.candidate == Some(key)
                           then m.validCount else 0;
            CountEvidence(carried, input.evidences, key, input.healthEpoch) >= samples
  {
  }

  // What the count means: the accepted samples that concern the candidate since
  // its last rejected one, on top of the count carried over only if there was
  // no rejection.
  ghost predicate NoRejection(evidences: seq<Evidence>, i: nat, candidate: CandidateKey, epoch: uint64) {
    forall k :: i <= k < |evidences| && Concerns(evidences[k], candidate, epoch) ==> evidences[k].result.None?
  }

  function Concerning(evidences: seq<Evidence>, candidate: CandidateKey, epoch: uint64): nat {
    if evidences == [] then 0
    else
      var n := |evidences| - 1;
      Concerning(evidences[..n], candidate, epoch) + (if Concerns(evidences[n], candidate, epoch) then 1 else 0)
  }

  lemma {:induction false} CountIsTail(count: nat, evidences: seq<Evidence>, i: nat, candidate: CandidateKey, epoch: uint64)
    requires i <= |evidences| && NoRejection(evidences, i, candidate, epoch)
    requires i == 0 || (Concerns(evidences[i - 1], candidate, epoch) && evidences[i - 1].result.Some?)
    requires count <= MAX_UINT16
    ensures var carried := (if i == 0 then count else 0) + Concerning(evidences[i..], candidate, epoch);
            CountEvidence(count, evidences, candidate, epoch) == if carried < MAX_UINT16 then carried else MAX_UINT16
    decreases |evidences|
  {
    var n := |evidences| - 1;
    if i < |evidences| {
      CountIsTail(count, evidences[..n], i, candidate, epoch);
      assert evidences[i..][..n - i] == evidences[..n][i..];
      assert Concerns(evidences[n], candidate, epoch) ==> evidences[n].result.None?;
    } else {
      assert evidences[i..] == [];
    }
  }
}
