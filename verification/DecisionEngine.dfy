// The gateway's deterministic core as functions on its state
// (control_link_gateway/src/decision_engine.cpp). EngineObject holds the class
// that carries the state in fields.
module DecisionEngine {
  import opened Common
  import opened Messages
  import opened CommandValidator
  import opened SourceRuntime
  import A = SourceArbiter
  import M = GatewayStateMachine

  datatype EndpointState = Missing | Ambiguous | UnexpectedDirection | TypeMismatch | QosMismatch | Usable

  datatype SourceEndpoint = SourceEndpoint(sourceId: string, state: EndpointState, generation: Option<PublisherKey>)

  datatype EngineConfig = EngineConfig(
    rules: CommandRules,
    policy: map<string, A.PolicyEntry>,
    sources: seq<string>,               // enabled sources, in the order of the map
    outputRateHz: real,
    switchHoldMs: uint64,
    recoveryValidSamples: nat,
    lateThresholdMs: uint64,
    lateTicksToSafeStop: nat)
  {
    // What the parsers and the bundle validation guarantee.
    predicate Valid() {
      && (forall i, j :: 0 <= i < j < |sources| ==> sources[i] != sources[j])
      && (forall x :: x in sources ==> x != "" && x in policy)
      && 0 < lateTicksToSafeStop && 0 < recoveryValidSamples <= MAX_UINT16
    }

    function ArbiterRules(): A.ArbiterRules {
      A.ArbiterRules(rules.commandTimeoutMs, switchHoldMs, policy)
    }
  }

  // ------------------------------------------------------------- events

  datatype Transition = Configure | Activate | Deactivate | Cleanup | ErrorTransition

  datatype SampleEvent = SampleEvent(
    expectedSourceId: string,
    generation: PublisherKey,
    command: ControlCommand,
    nowRosNs: int64,
    steadyNs: int64)

  datatype TickEvent = TickEvent(
    steadyNs: int64,
    nowRosNs: int64,
    intervalNs: int,
    latenessNs: int,
    healthRevision: uint64)

  datatype HealthEvent = HealthEvent(
    revision: uint64,
    steadyNs: int64,
    health: M.Health,
    endpoints: seq<SourceEndpoint>)

  datatype Payload =
    | Lifecycle(transition: Transition, success: bool)
    | HealthSnapshot(snapshot: HealthEvent)
    | Sample(sample: SampleEvent)
    | OutputTick(tick: TickEvent)

  datatype Event = Event(sequence: uint64, payload: Payload)

  datatype SourceStatus = SourceStatus(
    sourceId: string,
    acceptedCount: nat,
    rejectedCount: nat,
    lastReject: Option<RejectReason>,
    lastAcceptedSequence: Option<uint64>,
    commandValid: bool,
    leaseValid: bool,
    commandAgeNs: int)

  datatype DecisionResult = DecisionResult(
    sequence: uint64,
    state: M.DataState,
    reason: M.StateReason,
    recoveryCandidate: Option<M.CandidateKey>,
    recoveryValidCount: nat,
    transitionSequence: nat,
    canonical: ControlCommand,
    lifecycleErrorRequested: bool,
    sources: seq<SourceStatus>)

  // -------------------------------------------------------------- state

  datatype Bindings = Bindings(slots: map<string, Slot>, endpoints: map<string, SourceEndpoint>)

  // Everything the health epoch depends on.
  datatype Vitals = Vitals(
    health: M.Health,
    revision: uint64,
    epoch: uint64,
    recoveryHealthy: bool,
    pending: seq<M.Evidence>)

  datatype Timing = Timing(lastSteady: Option<int64>, lastTick: Option<int64>, lateTicks: uint64)

  datatype EngineState = EngineState(
    bindings: Bindings,
    vitals: Vitals,
    timing: Timing,
    arbiter: A.ArbiterState,
    machine: M.MachineState,
    lastSequence: uint64,
    configured: bool,
    active: bool)

  // An exception leaves the engine in `state`.
  datatype Outcome = Done(state: EngineState, result: Option<DecisionResult>) | Threw(state: EngineState)

  function InitialBindings(sources: seq<string>): Bindings {
    Bindings(map x | x in sources :: EMPTY_SLOT, map x | x in sources :: SourceEndpoint(x, Missing, None))
  }

  function Initial(cfg: EngineConfig): EngineState {
    EngineState(
      InitialBindings(cfg.sources),
      Vitals(M.DEFAULT_HEALTH, 0, 0, false, []),
      Timing(None, None, 0),
      A.NO_HISTORY, M.INITIAL, 0, false, false)
  }

  // --------------------------------------------------------- health epoch

  // Evidence from before a change of recovery health is dropped. When the
  // epoch is exhausted, the engine declares itself unhealthy instead.
  function UpdateEpoch(v: Vitals): Vitals {
    var healthy := M.AllHealthy(v.health);
    if healthy == v.recoveryHealthy then v
    else if v.epoch == MAX_UINT64 then
      v.(pending := [], health := v.health.(internalInvariantsHealthy := false), recoveryHealthy := false)
    else v.(pending := [], epoch := v.epoch + 1, recoveryHealthy := healthy)
  }

  predicate SteadyAllowed(t: Timing, offset: int64) {
    offset >= 0 && (t.lastSteady.Some? ==> t.lastSteady.value <= offset)
  }

  // ------------------------------------------------------------ lifecycle

  function ResetActive(s: EngineState): EngineState {
    s.(arbiter := A.NO_HISTORY, machine := M.INITIAL,
       timing := s.timing.(lastTick := None, lateTicks := 0),
       vitals := UpdateEpoch(s.vitals.(pending := [], health := s.vitals.health.(outputTickHealthy := true))))
  }

  function ApplyLifecycle(s: EngineState, transition: Transition, success: bool): Outcome {
    if !success then Done(s, None)
    else
      match transition
      case Configure =>
        if s.configured || s.active then Threw(s) else Done(s.(configured := true), None)
      case Activate =>
        if !s.configured || s.active || s.vitals.revision == 0 then Threw(s)
        else Done(ResetActive(s).(active := true), None)
      case Deactivate =>
        if !s.configured || !s.active then Threw(s)
        else
          Done(s.(active := false, vitals := s.vitals.(pending := []),
                  timing := s.timing.(lastTick := None, lateTicks := 0)), None)
      case Cleanup =>
        if !s.configured || s.active then Threw(s) else Done(s.(configured := false), None)
      case ErrorTransition =>
        Done(s.(active := false, vitals := s.vitals.(pending := []), timing := s.timing.(lastTick := None)), None)
  }

  // --------------------------------------------------------------- health

  predicate WellFormedEndpoint(e: SourceEndpoint) {
    e.state.Usable? <==> e.generation.Some?
  }

  // Every enabled source once, and a generation exactly with a usable endpoint.
  predicate CoversSources(sources: seq<string>, endpoints: seq<SourceEndpoint>) {
    && |endpoints| == |sources|
    && (forall i :: 0 <= i < |endpoints| ==> endpoints[i].sourceId in sources && WellFormedEndpoint(endpoints[i]))
    && (forall i, j :: 0 <= i < j < |endpoints| ==> endpoints[i].sourceId != endpoints[j].sourceId)
  }

  function EndpointMap(endpoints: seq<SourceEndpoint>): map<string, SourceEndpoint> {
    if endpoints == [] then map[]
    else
      var n := |endpoints| - 1;
      EndpointMap(endpoints[..n])[endpoints[n].sourceId := endpoints[n]]
  }

  function BindSlot(slot: Slot, endpoint: SourceEndpoint): Option<Slot> {
    if endpoint.state.Usable? && endpoint.generation.Some? then
      var r := Confirm(slot, endpoint.generation.value);
      if r.Some? then Some(r.value.0) else None
    else Some(Invalidate(slot))
  }

  // The slots after binding the sources in order; false where it throws.
  function BindAll(sources: seq<string>, slots: map<string, Slot>, endpoints: map<string, SourceEndpoint>)
    : (r: (map<string, Slot>, bool))
    requires forall x :: x in sources ==> x in slots && x in endpoints
    ensures r.0.Keys == slots.Keys
  {
    if sources == [] then (slots, true)
    else
      var n := |sources| - 1;
      var (before, ok) := BindAll(sources[..n], slots, endpoints);
      if !ok then (before, false)
      else
        var bound := BindSlot(before[sources[n]], endpoints[sources[n]]);
        if bound.None? then (before, false) else (before[sources[n] := bound.value], true)
  }

  // The engine's maps cover the enabled sources.
  predicate Covers(cfg: EngineConfig, b: Bindings) {
    b.slots.Keys == b.endpoints.Keys == (set x | x in cfg.sources)
  }

  lemma {:induction false} EndpointMapCovers(endpoints: seq<SourceEndpoint>)
    ensures EndpointMap(endpoints).Keys == set i | 0 <= i < |endpoints| :: endpoints[i].sourceId
    ensures forall x :: x in EndpointMap(endpoints) ==>
              EndpointMap(endpoints)[x] in endpoints && EndpointMap(endpoints)[x].sourceId == x
  {
    if endpoints != [] {
      EndpointMapCovers(endpoints[..|endpoints| - 1]);
    }
  }

  // As many reports as sources, all different and all of sources: each source
  // is reported.
  lemma CoveredByAll(sources: seq<string>, endpoints: seq<SourceEndpoint>)
    requires CoversSources(sources, endpoints)
    requires forall i, j :: 0 <= i < j < |sources| ==> sources[i] != sources[j]
    ensures EndpointMap(endpoints).Keys == set x | x in sources
  {
    EndpointMapCovers(endpoints);
    var reported := set i | 0 <= i < |endpoints| :: endpoints[i].sourceId;
    DistinctCount(sources);
    ReportedCount(endpoints);
    SubsetOfSameSize(reported, set x | x in sources);
  }

  lemma {:induction false} DistinctCount(xs: seq<string>)
    requires forall i, j :: 0 <= i < j < |xs| ==> xs[i] != xs[j]
    ensures |set x | x in xs| == |xs|
  {
    if xs != [] {
      var n := |xs| - 1;
      DistinctCount(xs[..n]);
      assert (set x | x in xs) == (set x | x in xs[..n]) + {xs[n]};
    }
  }

  lemma {:induction false} ReportedCount(endpoints: seq<SourceEndpoint>)
    requires forall i, j :: 0 <= i < j < |endpoints| ==> endpoints[i].sourceId != endpoints[j].sourceId
    ensures |set i | 0 <= i < |endpoints| :: endpoints[i].sourceId| == |endpoints|
  {
    if endpoints != [] {
      var n := |endpoints| - 1;
      ReportedCount(endpoints[..n]);
      assert (set i | 0 <= i < |endpoints| :: endpoints[i].sourceId) ==
             (set i | 0 <= i < n :: endpoints[..n][i].sourceId) + {endpoints[n].sourceId};
    }
  }

  lemma SubsetOfSameSize(a: set<string>, b: set<string>)
    requires a <= b && |a| == |b|
    ensures a == b
  {
    if a != b {
      var x :| x in b && x !in a;
      assert a <= b - {x};
      SubsetSize(a, b - {x});
    }
  }

  lemma {:induction false} SubsetSize(a: set<string>, b: set<string>)
    requires a <= b
    ensures |a| <= |b|
  {
    if a != {} {
      var x :| x in a;
      SubsetSize(a - {x}, b - {x});
    }
  }

  predicate HealthEventAllowed(cfg: EngineConfig, s: EngineState, e: HealthEvent) {
    && s.configured
    && s.vitals.revision < MAX_UINT64 && e.revision == s.vitals.revision + 1
    && SteadyAllowed(s.timing, e.steadyNs)
    && CoversSources(cfg.sources, e.endpoints)
  }

  function HealthVitals(v: Vitals, e: HealthEvent): Vitals {
    UpdateEpoch(v.(health := e.health, revision := e.revision))
  }

  function HealthCommitted(cfg: EngineConfig, s: EngineState, next: map<string, SourceEndpoint>, e: HealthEvent): Outcome
    requires forall x :: x in cfg.sources ==> x in s.bindings.slots && x in next
  {
    var (slots, ok) := BindAll(cfg.sources, s.bindings.slots, next);
    if !ok then Threw(s.(bindings := s.bindings.(slots := slots)))
    else
      Done(s.(bindings := Bindings(slots, next),
              vitals := HealthVitals(s.vitals, e),
              timing := s.timing.(lastSteady := Some(e.steadyNs))), None)
  }

  function ApplyHealth(cfg: EngineConfig, s: EngineState, e: HealthEvent): Outcome
    requires cfg.Valid() && Covers(cfg, s.bindings)
  {
    if !HealthEventAllowed(cfg, s, e) then Threw(s)
    else
      CoveredByAll(cfg.sources, e.endpoints);
      HealthCommitted(cfg, s, EndpointMap(e.endpoints), e)
  }

  // --------------------------------------------------------------- samples

  predicate IsBound(endpoint: SourceEndpoint, generation: PublisherKey) {
    endpoint.state.Usable? && endpoint.generation == Some(generation)
  }

  function BindingReject(state: EndpointState): RejectReason {
    if state.Ambiguous? then SourceEndpointAmbiguous else PublisherGenerationUnstable
  }

  function SampleContext(cfg: EngineConfig, s: EngineState, slot: Slot, e: SampleEvent): Context
    requires e.expectedSourceId in cfg.policy
  {
    Context(e.expectedSourceId, e.generation, slot.lastSequence, cfg.policy[e.expectedSourceId].priority,
            e.nowRosNs, s.vitals.health.rosClockHealthy, e.steadyNs)
  }

  // None stands for an exception before anything was changed.
  function SampleVerdict(cfg: EngineConfig, s: EngineState, e: SampleEvent): Option<Result<SourceSnapshot, RejectReason>> {
    var x := e.expectedSourceId;
    if !s.configured || !s.active || !SteadyAllowed(s.timing, e.steadyNs) then None
    else if x !in s.bindings.slots || x !in s.bindings.endpoints then None
    else if !IsBound(s.bindings.endpoints[x], e.generation) then
      Some(Err(BindingReject(s.bindings.endpoints[x].state)))
    else if !MatchesGeneration(s.bindings.slots[x], e.generation) then None
    else if x !in cfg.policy then None
    else Some(Validate(e.command, SampleContext(cfg, s, s.bindings.slots[x], e), cfg.rules))
  }

  function ResultOf(verdict: Result<SourceSnapshot, RejectReason>): Option<RejectReason> {
    match verdict case Ok(_) => None case Err(reason) => Some(reason)
  }

  function ApplySample(cfg: EngineConfig, s: EngineState, e: SampleEvent): Outcome {
    var verdict := SampleVerdict(cfg, s, e);
    if verdict.None? || e.expectedSourceId !in s.bindings.slots then Threw(s)
    else
      var x := e.expectedSourceId;
      var slot := Commit(s.bindings.slots[x], verdict.value);
      if slot.None? then Threw(s)
      else
        var evidence := M.Evidence(M.CandidateKey(x, e.generation), ResultOf(verdict.value), s.vitals.epoch);
        Done(s.(bindings := s.bindings.(slots := s.bindings.slots[x := slot.value]),
                vitals := s.vitals.(pending := s.vitals.pending + [evidence]),
                timing := s.timing.(lastSteady := Some(e.steadyNs))), None)
  }

  // ----------------------------------------------------------------- ticks

  // The period in whole nanoseconds, rounded up; None stands for an exception.
  function OutputPeriodNs(rateHz: real): Option<int> {
    if rateHz <= 0.0 then None
    else
      var period := NS_PER_SECOND as real / rateHz;
      if period < 1.0 || period > MAX_INT64 as real then None
      else Some(0 - (0.0 - period).Floor)
  }

  function DescribeTick(cfg: EngineConfig, s: EngineState, steadyNs: int64, nowRosNs: int64): Option<TickEvent> {
    var period := OutputPeriodNs(cfg.outputRateHz);
    if !SteadyAllowed(s.timing, steadyNs) || period.None? then None
    else
      var interval := if s.timing.lastTick.Some? then steadyNs - s.timing.lastTick.value else 0;
      Some(TickEvent(steadyNs, nowRosNs, interval, if interval > period.value then interval - period.value else 0,
                     s.vitals.revision))
  }

  function CheckedMilliseconds(ms: uint64): Option<int> {
    if ms == 0 || ms > MAX_INT64 / NS_PER_MILLISECOND then None else Some(ms * NS_PER_MILLISECOND)
  }

  // None stands for an exception on the threshold.
  function CountLate(t: Timing, thresholdMs: uint64, intervalNs: int): Option<uint64> {
    if t.lastTick.None? then Some(t.lateTicks)
    else
      var threshold := CheckedMilliseconds(thresholdMs);
      if threshold.None? then None
      else if intervalNs > threshold.value then Some(if t.lateTicks < MAX_UINT64 then t.lateTicks + 1 else t.lateTicks)
      else Some(0)
  }

  predicate TickAllowed(cfg: EngineConfig, s: EngineState, e: TickEvent) {
    && s.configured && s.active
    && e.healthRevision == s.vitals.revision && s.vitals.revision != 0
    && DescribeTick(cfg, s, e.steadyNs, e.nowRosNs) == Some(e)
    && CountLate(s.timing, cfg.lateThresholdMs, e.intervalNs).Some?
  }

  // The state once the tick is counted and its verdict on lateness is in the
  // health snapshot.
  function Counted(cfg: EngineConfig, s: EngineState, e: TickEvent): EngineState
    requires CountLate(s.timing, cfg.lateThresholdMs, e.intervalNs).Some?
  {
    var late := CountLate(s.timing, cfg.lateThresholdMs, e.intervalNs).value;
    s.(timing := s.timing.(lastTick := Some(e.steadyNs), lateTicks := late),
       vitals := UpdateEpoch(s.vitals.(
         health := s.vitals.health.(outputTickHealthy := late < cfg.lateTicksToSafeStop))))
  }

  // None stands for a logic_error.
  function CanonicalCommand(d: M.Decision): Option<ControlCommand> {
    match d.selected
    case None =>
      if d.state.Active? then None
      else Some(ControlCommand(Stamp(0, 0), "", 0, MODE_HOLD, Finite(0.0), Finite(0.0)))
    case Some(selected) =>
      var stamp := RosTimeMessage(selected.sourceStampNs);
      if stamp.None? then None
      else if !d.state.Active? then
        Some(ControlCommand(stamp.value, selected.sourceId, selected.sequence, MODE_HOLD, Finite(0.0), Finite(0.0)))
      else
        Some(ControlCommand(stamp.value, selected.sourceId, selected.sequence,
                            if selected.mode.Normal? then MODE_NORMAL else MODE_HOLD,
                            selected.linearVelocity, selected.angularVelocity))
  }

  function StatusOf(cfg: EngineConfig, x: string, slot: Slot, endpoint: SourceEndpoint, e: TickEvent): Option<SourceStatus> {
    var bound := endpoint.state.Usable? && endpoint.generation.Some? && slot.generation == endpoint.generation;
    var status := SourceStatus(x, slot.accepted, slot.rejected, slot.lastReject, slot.lastSequence,
                               bound && slot.latest.Some?, false, 0);
    if slot.latest.None? then Some(status)
    else
      var assessment := A.Assess(slot.latest.value, cfg.ArbiterRules(), e.nowRosNs, e.steadyNs);
      if assessment.None? || slot.latest.value.sourceId != x then None
      else
        Some(status.(leaseValid := status.commandValid && assessment.value.leaseValid,
                     commandAgeNs := assessment.value.ageNs))
  }

  function StatusesOf(cfg: EngineConfig, sources: seq<string>, b: Bindings, e: TickEvent): Option<seq<SourceStatus>>
    requires forall x :: x in sources ==> x in b.slots && x in b.endpoints
  {
    if sources == [] then Some([])
    else
      var n := |sources| - 1;
      var before := StatusesOf(cfg, sources[..n], b, e);
      var status := StatusOf(cfg, sources[n], b.slots[sources[n]], b.endpoints[sources[n]], e);
      if before.None? || status.None? then None else Some(before.value + [status.value])
  }

  // What the state machine is given at this tick.
  function MachineInput(c: EngineState, arbitration: A.Arbitration): M.Input {
    M.Input(c.vitals.health, arbitration, c.vitals.pending, c.vitals.epoch)
  }

  // The second half of a tick, on a counted state. The evidence is handed over
  // even if what follows throws.
  function Decide(cfg: EngineConfig, c: EngineState, sequence: uint64, e: TickEvent): Outcome
    requires Covers(cfg, c.bindings)
  {
    if exists x :: x in cfg.sources && !Consistent(x, c.bindings.slots[x]) then Threw(c)
    else
      var arbitrated := A.Arbitrate(c.arbiter, Collected(cfg.sources, c.bindings.slots), cfg.ArbiterRules(),
                                    e.nowRosNs, e.steadyNs);
      if arbitrated.None? then Threw(c)
      else
        var (machine, d) := M.Evaluate(c.machine, MachineInput(c, arbitrated.value.1), cfg.recoveryValidSamples);
        var decided := c.(arbiter := arbitrated.value.0, machine := machine, vitals := c.vitals.(pending := []));
        var canonical := CanonicalCommand(d);
        var statuses := StatusesOf(cfg, cfg.sources, c.bindings, e);
        if canonical.None? || statuses.None? then Threw(decided)
        else
          Done(decided.(timing := c.timing.(lastSteady := Some(e.steadyNs))),
               Some(DecisionResult(
                      sequence, d.state, d.reason,
                      if d.state.Recovering? && d.selected.Some? then Some(M.CandidateOf(d.selected.value)) else None,
                      d.recoveryValidCount, d.transitionSequence, canonical.value, d.state.Error?, statuses.value)))
  }

  function ApplyTick(cfg: EngineConfig, s: EngineState, sequence: uint64, e: TickEvent): Outcome
    requires Covers(cfg, s.bindings)
  {
    if !TickAllowed(cfg, s, e) then Threw(s)
    else if cfg.lateTicksToSafeStop == 0 then
      Threw(s.(timing := s.timing.(
                 lastTick := Some(e.steadyNs),
                 lateTicks := CountLate(s.timing, cfg.lateThresholdMs, e.intervalNs).value)))
    else Decide(cfg, Counted(cfg, s, e), sequence, e)
  }

  // ---------------------------------------------------------------- events

  function ApplyPayload(cfg: EngineConfig, s: EngineState, e: Event): Outcome
    requires cfg.Valid() && Covers(cfg, s.bindings)
  {
    match e.payload
    case Lifecycle(transition, success) => ApplyLifecycle(s, transition, success)
    case HealthSnapshot(snapshot) => ApplyHealth(cfg, s, snapshot)
    case Sample(sample) => ApplySample(cfg, s, sample)
    case OutputTick(tick) => ApplyTick(cfg, s, e.sequence, tick)
  }

  function ApplyEvent(cfg: EngineConfig, s: EngineState, e: Event): Outcome
    requires cfg.Valid() && Covers(cfg, s.bindings)
  {
    if s.lastSequence == MAX_UINT64 || e.sequence != s.lastSequence + 1 then Threw(s)
    else
      match ApplyPayload(cfg, s, e)
      case Done(t, result) => Done(t.(lastSequence := e.sequence), result)
      case Threw(t) => Threw(t)
  }
}
