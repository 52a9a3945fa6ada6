// What every reachable state of the decision engine keeps, and why the
// engine's own logic errors cannot occur.
module EngineInvariant {
  import opened Common
  import opened Messages
  import opened CommandValidator
  import opened SourceRuntime
  import opened DecisionEngine
  import A = SourceArbiter
  import M = GatewayStateMachine

  // A held snapshot carries the source's priority, a motion within the limits,
  // a stamp that can be published and a receive time in the past.
  predicate SnapshotInv(cfg: EngineConfig, s: SourceSnapshot, lastSteady: Option<int64>) {
    && s.sourceId in cfg.policy && s.priority == cfg.policy[s.sourceId].priority
    && RosTimeMessage(s.sourceStampNs).Some? && s.sourceStampNs > 0
    && SnapshotMotion(s, cfg.rules)
    && lastSteady.Some? && s.receivedAt <= lastSteady.value
  }

  predicate SnapshotMotion(s: SourceSnapshot, rules: CommandRules) {
    match s.mode
    case Hold => s.linearVelocity == Finite(0.0) && s.angularVelocity == Finite(0.0)
    case Normal => Within(s.linearVelocity, rules.maxAbsLinear) && Within(s.angularVelocity, rules.maxAbsAngular)
  }

  // A slot that holds a snapshot has a usable endpoint, whose generation is the
  // one the slot is bound to and the one the snapshot came from.
  predicate SourceInv(cfg: EngineConfig, x: string, slot: Slot, endpoint: SourceEndpoint, lastSteady: Option<int64>) {
    && SlotInv(x, slot)
    && endpoint.sourceId == x && WellFormedEndpoint(endpoint)
    && (endpoint.state.Usable? ==> slot.generation == endpoint.generation)
    && (slot.latest.Some? ==>
          && endpoint.state.Usable? && endpoint.generation == slot.generation == Some(slot.latest.value.generation)
          && SnapshotInv(cfg, slot.latest.value, lastSteady))
  }

  ghost predicate BindingsInv(cfg: EngineConfig, b: Bindings, lastSteady: Option<int64>) {
    Covers(cfg, b) && forall x :: x in cfg.sources ==> SourceInv(cfg, x, b.slots[x], b.endpoints[x], lastSteady)
  }

  predicate VitalsInv(v: Vitals) {
    && (v.recoveryHealthy <==> M.AllHealthy(v.health))
    && forall i :: 0 <= i < |v.pending| ==> v.pending[i].healthEpoch == v.epoch
  }

  predicate TimingInv(t: Timing, a: A.ArbiterState) {
    && (t.lastSteady.Some? ==> t.lastSteady.value >= 0)
    && (t.lastTick.Some? ==> t.lastSteady.Some? && t.lastTick.value <= t.lastSteady.value)
    && (a.challenger.Some? ==> t.lastSteady.Some? && a.challenger.value.betterSince <= t.lastSteady.value)
  }

  ghost predicate Inv(cfg: EngineConfig, s: EngineState) {
    && BindingsInv(cfg, s.bindings, s.timing.lastSteady)
    && VitalsInv(s.vitals)
    && TimingInv(s.timing, s.arbiter)
  }

  lemma InitialInv(cfg: EngineConfig)
    requires cfg.Valid()
    ensures Inv(cfg, Initial(cfg))
  {
  }

  lemma UpdateEpochInv(v: Vitals)
    requires v.recoveryHealthy == M.AllHealthy(v.health) ==>
               forall i :: 0 <= i < |v.pending| ==> v.pending[i].healthEpoch == v.epoch
    ensures VitalsInv(UpdateEpoch(v))
  {
  }

  lemma LaterSteady(cfg: EngineConfig, b: Bindings, t: Timing, steadyNs: int64)
    requires BindingsInv(cfg, b, t.lastSteady) && SteadyAllowed(t, steadyNs)
    ensures BindingsInv(cfg, b, Some(steadyNs))
  {
    forall x | x in cfg.sources
      ensures SourceInv(cfg, x, b.slots[x], b.endpoints[x], Some(steadyNs))
    {
      assert SourceInv(cfg, x, b.slots[x], b.endpoints[x], t.lastSteady);
    }
  }

  // ------------------------------------------------------------ lifecycle

  lemma LifecycleKeeps(cfg: EngineConfig, s: EngineState, transition: Transition, success: bool)
    requires Inv(cfg, s)
    ensures Inv(cfg, ApplyLifecycle(s, transition, success).state)
    ensures ApplyLifecycle(s, transition, success).Threw? ==> ApplyLifecycle(s, transition, success).state == s
  {
    UpdateEpochInv(s.vitals.(pending := [], health := s.vitals.health.(outputTickHealthy := true)));
  }

  // --------------------------------------------------------------- health

  lemma BindSlotKeeps(cfg: EngineConfig, x: string, slot: Slot, old': SourceEndpoint, endpoint: SourceEndpoint,
                      lastSteady: Option<int64>)
    requires SourceInv(cfg, x, slot, old', lastSteady)
    requires endpoint.sourceId == x && WellFormedEndpoint(endpoint)
    ensures BindSlot(slot, endpoint).Some?
    ensures SourceInv(cfg, x, BindSlot(slot, endpoint).value, endpoint, lastSteady)
  {
  }

  // Binding never throws on the slots of a reachable state.
  lemma {:induction false} BindAllKeeps(cfg: EngineConfig, sources: seq<string>, b: Bindings,
                                        next: map<string, SourceEndpoint>, lastSteady: Option<int64>)
    requires forall i, j :: 0 <= i < j < |sources| ==> sources[i] != sources[j]
    requires forall x :: x in sources ==> x in b.slots && x in b.endpoints && x in next
    requires forall x :: x in sources ==> SourceInv(cfg, x, b.slots[x], b.endpoints[x], lastSteady)
    requires forall x :: x in sources ==> next[x].sourceId == x && WellFormedEndpoint(next[x])
    ensures var (slots, ok) := BindAll(sources, b.slots, next);
            && ok
            && (forall x :: x in b.slots && x !in sources ==> slots[x] == b.slots[x])
            && (forall x :: x in sources ==>
                  BindSlot(b.slots[x], next[x]) == Some(slots[x]) && SourceInv(cfg, x, slots[x], next[x], lastSteady))
  {
    if sources != [] {
      var n := |sources| - 1;
      var last := sources[n];
      assert last !in sources[..n];
      BindAllKeeps(cfg, sources[..n], b, next, lastSteady);
      BindSlotKeeps(cfg, last, b.slots[last], b.endpoints[last], next[last], lastSteady);
      assert forall x :: x in sources <==> x in sources[..n] || x == last;
    }
  }

  lemma ReportedWellFormed(cfg: EngineConfig, endpoints: seq<SourceEndpoint>)
    requires cfg.Valid() && CoversSources(cfg.sources, endpoints)
    ensures EndpointMap(endpoints).Keys == set x | x in cfg.sources
    ensures forall x :: x in cfg.sources ==>
              EndpointMap(endpoints)[x].sourceId == x && WellFormedEndpoint(EndpointMap(endpoints)[x])
  {
    CoveredByAll(cfg.sources, endpoints);
    EndpointMapCovers(endpoints);
  }

  lemma HealthKeeps(cfg: EngineConfig, s: EngineState, e: HealthEvent)
    requires cfg.Valid() && Inv(cfg, s)
    ensures var r := ApplyHealth(cfg, s, e); Inv(cfg, r.state) && (r.Threw? ==> r.state == s)
  {
    if HealthEventAllowed(cfg, s, e) {
      ReportedWellFormed(cfg, e.endpoints);
      var next := EndpointMap(e.endpoints);
      BindAllKeeps(cfg, cfg.sources, s.bindings, next, s.timing.lastSteady);
      var slots := BindAll(cfg.sources, s.bindings.slots, next).0;
      LaterSteady(cfg, Bindings(slots, next), s.timing, e.steadyNs);
      UpdateEpochInv(s.vitals.(health := e.health, revision := e.revision));
    }
  }

  // --------------------------------------------------------------- samples

  // A sample from the generation its source is bound to is judged by the
  // validator, and one that passes can always be committed.
  lemma SampleCommits(cfg: EngineConfig, s: EngineState, e: SampleEvent)
    requires cfg.Valid() && Inv(cfg, s) && SampleVerdict(cfg, s, e).Some?
    ensures var x := e.expectedSourceId;
            && x in s.bindings.slots && x in cfg.sources
            && Commit(s.bindings.slots[x], SampleVerdict(cfg, s, e).value).Some?
            && SourceInv(cfg, x, Commit(s.bindings.slots[x], SampleVerdict(cfg, s, e).value).value,
                         s.bindings.endpoints[x], Some(e.steadyNs))
  {
    var x := e.expectedSourceId;
    assert SourceInv(cfg, x, s.bindings.slots[x], s.bindings.endpoints[x], s.timing.lastSteady);
    LaterSteady(cfg, s.bindings, s.timing, e.steadyNs);
    if SampleVerdict(cfg, s, e).value.Ok? {
      AcceptedSnapshot(cfg, s, e);
    }
  }

  lemma AcceptedSnapshot(cfg: EngineConfig, s: EngineState, e: SampleEvent)
    requires cfg.Valid() && Inv(cfg, s) && SampleVerdict(cfg, s, e).Some?
    requires SampleVerdict(cfg, s, e).value.Ok?
    ensures var x := e.expectedSourceId;
            && x in cfg.sources && IsBound(s.bindings.endpoints[x], e.generation)
            && s.bindings.slots[x].generation == Some(e.generation)
    ensures var x, snapshot := e.expectedSourceId, SampleVerdict(cfg, s, e).value.value;
            && snapshot.sourceId == x && snapshot.generation == e.generation
            && snapshot.sequence == e.command.sourceSequence
            && (s.bindings.slots[x].lastSequence.Some? ==> s.bindings.slots[x].lastSequence.value < snapshot.sequence)
            && SnapshotInv(cfg, snapshot, Some(e.steadyNs))
  {
    var x := e.expectedSourceId;
    assert SourceInv(cfg, x, s.bindings.slots[x], s.bindings.endpoints[x], s.timing.lastSteady);
    CommandValidator.AcceptsExactly(e.command, SampleContext(cfg, s, s.bindings.slots[x], e), cfg.rules);
  }

  lemma SampleKeeps(cfg: EngineConfig, s: EngineState, e: SampleEvent)
    requires cfg.Valid() && Inv(cfg, s)
    ensures var r := ApplySample(cfg, s, e); Inv(cfg, r.state) && (r.Threw? ==> r.state == s)
    ensures ApplySample(cfg, s, e).Threw? <==> SampleVerdict(cfg, s, e).None?
  {
    if SampleVerdict(cfg, s, e).Some? {
      SampleCommits(cfg, s, e);
      LaterSteady(cfg, s.bindings, s.timing, e.steadyNs);
      var x := e.expectedSourceId;
      var slots := s.bindings.slots[x := Commit(s.bindings.slots[x], SampleVerdict(cfg, s, e).value).value];
      assert BindingsInv(cfg, Bindings(slots, s.bindings.endpoints), Some(e.steadyNs));
    }
  }

  // ----------------------------------------------------------------- ticks

  // Every snapshot that reaches the arbiter is plausible, so it cannot throw.
  lemma CollectedPlausible(cfg: EngineConfig, b: Bindings, lastSteady: Option<int64>, e: TickEvent)
    requires cfg.Valid() && BindingsInv(cfg, b, lastSteady)
    requires lastSteady.Some? ==> lastSteady.value <= e.steadyNs
    ensures forall x :: x in cfg.sources ==> Consistent(x, b.slots[x])
    ensures forall s :: s in Collected(cfg.sources, b.slots) ==>
              && A.Plausible(s, cfg.ArbiterRules(), e.steadyNs) && SnapshotInv(cfg, s, lastSteady)
              && s.sourceId in cfg.sources && b.slots[s.sourceId].latest == Some(s)
  {
    forall x | x in cfg.sources
      ensures Consistent(x, b.slots[x])
    {
      assert SourceInv(cfg, x, b.slots[x], b.endpoints[x], lastSteady);
    }
    forall s | s in Collected(cfg.sources, b.slots)
      ensures A.Plausible(s, cfg.ArbiterRules(), e.steadyNs) && SnapshotInv(cfg, s, lastSteady)
      ensures s.sourceId in cfg.sources && b.slots[s.sourceId].latest == Some(s)
    {
      CollectedAre(cfg.sources, b.slots, s);
      var x :| x in cfg.sources && b.slots[x].latest == Some(s);
      assert SourceInv(cfg, x, b.slots[x], b.endpoints[x], lastSteady);
    }
  }

  lemma ArbitrationNeverThrows(a: A.ArbiterState, snapshots: seq<SourceSnapshot>, rules: A.ArbiterRules,
                               nowRosNs: int64, nowSteady: int)
    requires forall s :: s in snapshots ==> A.Plausible(s, rules, nowSteady)
    requires a.challenger.Some? ==> a.challenger.value.betterSince <= nowSteady
    ensures A.Arbitrate(a, snapshots, rules, nowRosNs, nowSteady).Some?
    ensures var after := A.Arbitrate(a, snapshots, rules, nowRosNs, nowSteady).value.0;
            after.challenger.Some? ==> after.challenger.value.betterSince <= nowSteady
  {
  }

  lemma {:induction false} StatusesNeverThrow(cfg: EngineConfig, sources: seq<string>, b: Bindings,
                                              lastSteady: Option<int64>, e: TickEvent)
    requires forall x :: x in sources ==> x in b.slots && x in b.endpoints
    requires forall x :: x in sources ==> SourceInv(cfg, x, b.slots[x], b.endpoints[x], lastSteady)
    requires lastSteady.Some? ==> lastSteady.value <= e.steadyNs
    ensures StatusesOf(cfg, sources, b, e).Some?
  {
    if sources != [] {
      StatusesNeverThrow(cfg, sources[..|sources| - 1], b, lastSteady, e);
    }
  }

  // The canonical command exists whenever the selection is a held snapshot.
  lemma CanonicalExists(cfg: EngineConfig, d: M.Decision, lastSteady: Option<int64>)
    requires d.state.Active? ==> d.selected.Some?
    requires d.selected.Some? ==> SnapshotInv(cfg, d.selected.value, lastSteady)
    ensures CanonicalCommand(d).Some?
  {
  }

  // A state on which a tick may decide.
  ghost predicate Decidable(cfg: EngineConfig, c: EngineState, e: TickEvent) {
    && BindingsInv(cfg, c.bindings, c.timing.lastSteady)
    && SteadyAllowed(c.timing, e.steadyNs)
    && (c.arbiter.challenger.Some? ==> c.arbiter.challenger.value.betterSince <= e.steadyNs)
  }

  // What the arbiter hands to the state machine at this tick.
  function ArbitrationOf(cfg: EngineConfig, c: EngineState, e: TickEvent): Option<(A.ArbiterState, A.Arbitration)>
    requires Covers(cfg, c.bindings)
  {
    A.Arbitrate(c.arbiter, Collected(cfg.sources, c.bindings.slots), cfg.ArbiterRules(), e.nowRosNs, e.steadyNs)
  }

  // The selection is a snapshot that its slot holds.
  lemma SelectionIsHeld(cfg: EngineConfig, c: EngineState, e: TickEvent)
    requires cfg.Valid() && Decidable(cfg, c, e)
    ensures ArbitrationOf(cfg, c, e).Some?
    ensures var (after, arbitration) := ArbitrationOf(cfg, c, e).value;
            && (after.challenger.Some? ==> after.challenger.value.betterSince <= e.steadyNs)
            && (arbitration.selected.Some? ==>
                  var s := arbitration.selected.value;
                  && s.sourceId in cfg.sources && c.bindings.slots[s.sourceId].latest == Some(s)
                  && SnapshotInv(cfg, s, c.timing.lastSteady))
  {
    CollectedPlausible(cfg, c.bindings, c.timing.lastSteady, e);
    var snapshots := Collected(cfg.sources, c.bindings.slots);
    ArbitrationNeverThrows(c.arbiter, snapshots, cfg.ArbiterRules(), e.nowRosNs, e.steadyNs);
    A.SelectionQualified(c.arbiter, snapshots, cfg.ArbiterRules(), e.nowRosNs, e.steadyNs);
  }

  // What a tick decides on a counted state: no exception is left.
  lemma DecideKeeps(cfg: EngineConfig, c: EngineState, sequence: uint64, e: TickEvent)
    requires cfg.Valid() && Decidable(cfg, c, e) && VitalsInv(c.vitals) && c.timing.lastTick == Some(e.steadyNs)
    ensures var r := Decide(cfg, c, sequence, e); r.Done? && r.result.Some? && Inv(cfg, r.state)
  {
    SelectionIsHeld(cfg, c, e);
    CollectedPlausible(cfg, c.bindings, c.timing.lastSteady, e);
    var arbitration := ArbitrationOf(cfg, c, e).value.1;
    M.ActiveIsHealthy(c.machine, MachineInput(c, arbitration), cfg.recoveryValidSamples);
    CanonicalExists(
      cfg, M.Evaluate(c.machine, MachineInput(c, arbitration), cfg.recoveryValidSamples).1, c.timing.lastSteady);
    StatusesNeverThrow(cfg, cfg.sources, c.bindings, c.timing.lastSteady, e);
    LaterSteady(cfg, c.bindings, c.timing, e.steadyNs);
  }

  lemma TickKeeps(cfg: EngineConfig, s: EngineState, sequence: uint64, e: TickEvent)
    requires cfg.Valid() && Inv(cfg, s)
    ensures var r := ApplyTick(cfg, s, sequence, e);
            && Inv(cfg, r.state) && (r.Threw? ==> r.state == s) && (r.Done? ==> r.result.Some?)
    ensures ApplyTick(cfg, s, sequence, e).Done? <==> TickAllowed(cfg, s, e)
  {
    if TickAllowed(cfg, s, e) {
      var late := CountLate(s.timing, cfg.lateThresholdMs, e.intervalNs).value;
      UpdateEpochInv(s.vitals.(health := s.vitals.health.(outputTickHealthy := late < cfg.lateTicksToSafeStop)));
      DecideKeeps(cfg, Counted(cfg, s, e), sequence, e);
    }
  }

  // ---------------------------------------------------------------- events

  // An event that is refused by an exception changes nothing.
  lemma AllOrNothing(cfg: EngineConfig, s: EngineState, e: Event)
    requires cfg.Valid() && Inv(cfg, s)
    ensures var r := ApplyEvent(cfg, s, e); Inv(cfg, r.state) && (r.Threw? ==> r.state == s)
  {
    match e.payload
    case Lifecycle(transition, success) => LifecycleKeeps(cfg, s, transition, success);
    case HealthSnapshot(snapshot) => HealthKeeps(cfg, s, snapshot);
    case Sample(sample) => SampleKeeps(cfg, s, sample);
    case OutputTick(tick) => TickKeeps(cfg, s, e.sequence, tick);
  }

  // What the senders of the events have to observe.
  predicate TransitionRefused(s: EngineState, transition: Transition) {
    match transition
    case Configure => s.configured || s.active
    case Activate => !s.configured || s.active || s.vitals.revision == 0
    case Deactivate => !s.configured || !s.active
    case Cleanup => !s.configured || s.active
    case ErrorTransition => false
  }

  predicate TickRefused(cfg: EngineConfig, s: EngineState, e: TickEvent) {
    || !s.configured || !s.active
    || e.healthRevision != s.vitals.revision || s.vitals.revision == 0
    || !SteadyAllowed(s.timing, e.steadyNs)
    || e.intervalNs != (if s.timing.lastTick.Some? then e.steadyNs - s.timing.lastTick.value else 0)
    || (PeriodFits(cfg) && e.latenessNs != Lateness(e.intervalNs, PeriodNs(cfg)))
  }

  predicate Refused(cfg: EngineConfig, s: EngineState, e: Event) {
    || s.lastSequence == MAX_UINT64 || e.sequence != s.lastSequence + 1
    || match e.payload
       case Lifecycle(transition, success) => success && TransitionRefused(s, transition)
       case HealthSnapshot(snapshot) => !HealthEventAllowed(cfg, s, snapshot)
       case Sample(sample) =>
         || !s.configured || !s.active || !SteadyAllowed(s.timing, sample.steadyNs)
         || sample.expectedSourceId !in cfg.sources
       case OutputTick(tick) => TickRefused(cfg, s, tick)
  }

  // The two values of a parsed contract that may be too large for the engine:
  // a period below a nanosecond or beyond 64 bits, and a late threshold whose
  // nanoseconds take more than 63 bits.
  predicate PeriodFits(cfg: EngineConfig) {
    cfg.outputRateHz > 0.0 && 1.0 <= NS_PER_SECOND as real / cfg.outputRateHz <= MAX_INT64 as real
  }

  predicate ThresholdFits(cfg: EngineConfig) {
    0 < cfg.lateThresholdMs <= MAX_INT64 / NS_PER_MILLISECOND
  }

  function PeriodNs(cfg: EngineConfig): int
    requires PeriodFits(cfg)
  {
    0 - (0.0 - NS_PER_SECOND as real / cfg.outputRateHz).Floor
  }

  function Lateness(intervalNs: int, periodNs: int): int {
    if intervalNs > periodNs then intervalNs - periodNs else 0
  }

  // A tick that the contract's own values make throw.
  predicate Unrepresentable(cfg: EngineConfig, s: EngineState, e: Event) {
    e.payload.OutputTick? && (!PeriodFits(cfg) || (s.timing.lastTick.Some? && !ThresholdFits(cfg)))
  }

  lemma LifecycleThrowsExactly(s: EngineState, transition: Transition, success: bool)
    ensures ApplyLifecycle(s, transition, success).Threw? <==> success && TransitionRefused(s, transition)
  {
  }

  lemma TickAllowedExactly(cfg: EngineConfig, s: EngineState, e: TickEvent)
    ensures TickAllowed(cfg, s, e) <==>
            !TickRefused(cfg, s, e) && PeriodFits(cfg) && (s.timing.lastTick.Some? ==> ThresholdFits(cfg))
  {
  }

  // An event throws exactly when it breaks a rule of its sender, or is a tick
  // whose period or threshold the contract makes unrepresentable; none of the
  // engine's consistency checks ever fails.
  lemma OnlyRefusalsThrow(cfg: EngineConfig, s: EngineState, e: Event)
    requires cfg.Valid() && Inv(cfg, s)
    ensures ApplyEvent(cfg, s, e).Threw? <==> Refused(cfg, s, e) || Unrepresentable(cfg, s, e)
  {
    match e.payload
    case Lifecycle(transition, success) => LifecycleThrowsExactly(s, transition, success);
    case HealthSnapshot(snapshot) => HealthThrowsExactly(cfg, s, snapshot);
    case Sample(sample) =>
      SampleKeeps(cfg, s, sample);
      SampleThrowsExactly(cfg, s, sample);
    case OutputTick(tick) =>
      TickKeeps(cfg, s, e.sequence, tick);
      TickAllowedExactly(cfg, s, tick);
  }

  lemma HealthThrowsExactly(cfg: EngineConfig, s: EngineState, e: HealthEvent)
    requires cfg.Valid() && Inv(cfg, s)
    ensures ApplyHealth(cfg, s, e).Threw? <==> !HealthEventAllowed(cfg, s, e)
  {
    if HealthEventAllowed(cfg, s, e) {
      ReportedWellFormed(cfg, e.endpoints);
      BindAllKeeps(cfg, cfg.sources, s.bindings, EndpointMap(e.endpoints), s.timing.lastSteady);
    }
  }

  // A usable endpoint's generation always matches its slot.
  lemma SampleThrowsExactly(cfg: EngineConfig, s: EngineState, e: SampleEvent)
    requires cfg.Valid() && Inv(cfg, s)
    ensures SampleVerdict(cfg, s, e).None? <==>
            || !s.configured || !s.active || !SteadyAllowed(s.timing, e.steadyNs)
            || e.expectedSourceId !in cfg.sources
  {
    var x := e.expectedSourceId;
    if x in cfg.sources {
      assert SourceInv(cfg, x, s.bindings.slots[x], s.bindings.endpoints[x], s.timing.lastSteady);
    }
  }
}
