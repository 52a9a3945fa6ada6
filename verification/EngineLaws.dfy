// What each kind of event does to the engine, field by field
// (control_link_gateway/src/decision_engine.cpp).
module EngineLaws {
  import opened Common
  import opened Messages
  import opened CommandValidator
  import opened SourceRuntime
  import opened DecisionEngine
  import opened EngineInvariant
  import opened EngineHistory
  import opened EngineEpochs
  import opened EngineOutput
  import opened EngineRecovery
  import opened EngineTicks
  import A = SourceArbiter
  import M = GatewayStateMachine

  // ------------------------------------------------------------ lifecycle

  // Activation starts with a fresh arbiter and state machine and without late
  // ticks; whatever ends an active period drops the evidence and the last tick,
  // and no transition touches what is known of the sources.
  lemma TransitionTaken(s: EngineState, transition: Transition)
    requires ApplyLifecycle(s, transition, true).Done?
    ensures var t := ApplyLifecycle(s, transition, true).state;
            && t.bindings == s.bindings && t.vitals.revision == s.vitals.revision
            && t.timing.lastSteady == s.timing.lastSteady && t.lastSequence == s.lastSequence
            && t.configured == (if transition.Configure? then true else if transition.Cleanup? then false else s.configured)
            && t.active == (if transition.Activate? then true
                            else if transition.Deactivate? || transition.ErrorTransition? then false else s.active)
            && (transition.Configure? || transition.Cleanup? ==>
                  t.vitals == s.vitals && t.timing == s.timing && t.arbiter == s.arbiter && t.machine == s.machine)
            && (transition.Deactivate? || transition.ErrorTransition? ==>
                  && t.vitals == s.vitals.(pending := []) && t.timing.lastTick.None?
                  && t.timing.lateTicks == (if transition.Deactivate? then 0 else s.timing.lateTicks)
                  && t.arbiter == s.arbiter && t.machine == s.machine)
            && (transition.Activate? ==>
                  && t.arbiter == A.ArbiterState(None, None)
                  && t.machine == M.MachineState(M.Standby, M.ReasonNone, None, 0, None, None, 0)
                  && t.timing.lastTick.None? && t.timing.lateTicks == 0 && t.vitals.pending == []
                  && (s.vitals.epoch < MAX_UINT64 ==> t.vitals.health == s.vitals.health.(outputTickHealthy := true)))
  {
  }

  ghost predicate Took(run: Run, i: nat, transition: Transition)
    requires i < |run.events| == |run.outcomes|
  {
    run.outcomes[i].Done? && run.events[i].payload == Lifecycle(transition, true)
  }

  // Where the history has the transition.
  ghost function Marks(run: Run, transition: Transition): (r: seq<bool>)
    requires |run.events| == |run.outcomes|
    ensures |r| == |run.events| && forall i :: 0 <= i < |r| ==> r[i] == Took(run, i, transition)
  {
    seq(|run.events|, i requires 0 <= i < |run.events| => Took(run, i, transition))
  }

  // A start at i, and neither end since.
  predicate StartedAt(start: seq<bool>, end: seq<bool>, other: seq<bool>, n: nat, i: nat)
    requires n <= |start| == |end| == |other|
  {
    i < n && start[i] && forall k :: i < k < n ==> !end[k] && !other[k]
  }

  ghost predicate Started(start: seq<bool>, end: seq<bool>, other: seq<bool>, n: nat)
    requires n <= |start| == |end| == |other|
  {
    exists i: nat :: StartedAt(start, end, other, n, i)
  }

  lemma StartedNext(start: seq<bool>, end: seq<bool>, other: seq<bool>, m: nat, n: nat)
    requires n == m + 1 && n <= |start| == |end| == |other|
    ensures Started(start, end, other, n) <==> start[m] || (!end[m] && !other[m] && Started(start, end, other, m))
  {
    if start[m] {
      assert StartedAt(start, end, other, n, m);
    } else {
      if i: nat :| StartedAt(start, end, other, m, i) && !end[m] && !other[m] {
        assert StartedAt(start, end, other, n, i);
      }
      if i: nat :| StartedAt(start, end, other, n, i) {
        assert StartedAt(start, end, other, m, i);
      }
    }
  }

  lemma FlagsKept(cfg: EngineConfig, s: EngineState, e: Event)
    requires cfg.Valid() && Covers(cfg, s.bindings) && !e.payload.Lifecycle?
    ensures var t := ApplyPayload(cfg, s, e).state; t.active == s.active && t.configured == s.configured
  {
  }

  lemma FlagsStep(cfg: EngineConfig, run: Run, i: nat)
    requires cfg.Valid() && IsRun(cfg, run) && i < |run.events|
    ensures run.states[i + 1].active == (if Took(run, i, Activate) then true
                                         else if Took(run, i, Deactivate) || Took(run, i, ErrorTransition) then false
                                         else run.states[i].active)
    ensures run.states[i + 1].configured == (if Took(run, i, Configure) then true
                                             else if Took(run, i, Cleanup) then false else run.states[i].configured)
  {
    assert IsStep(cfg, run, i);
    StatesKeepInv(cfg, run, i);
    if run.outcomes[i].Threw? {
      RefusedChangesNothing(cfg, run, i);
    } else if run.events[i].payload.Lifecycle? {
      if run.events[i].payload.success {
        TransitionTaken(run.states[i], run.events[i].payload.transition);
      }
    } else {
      FlagsKept(cfg, run.states[i], run.events[i]);
    }
  }

  // The engine is active exactly when its last successful activation was not
  // ended, and configured exactly when its last configuration was not.
  lemma {:induction false} FlagsExactly(cfg: EngineConfig, run: Run, n: nat)
    requires cfg.Valid() && IsRun(cfg, run) && n < |run.states|
    ensures run.states[n].active <==> Started(Marks(run, Activate), Marks(run, Deactivate), Marks(run, ErrorTransition), n)
    ensures run.states[n].configured <==> Started(Marks(run, Configure), Marks(run, Cleanup), Marks(run, Cleanup), n)
  {
    if n > 0 {
      FlagsExactly(cfg, run, n - 1);
      FlagsStep(cfg, run, n - 1);
      StartedNext(Marks(run, Activate), Marks(run, Deactivate), Marks(run, ErrorTransition), n - 1, n);
      StartedNext(Marks(run, Configure), Marks(run, Cleanup), Marks(run, Cleanup), n - 1, n);
    }
  }

  // --------------------------------------------------------------- health

  // A source whose publisher stays keeps its slot; a new publisher starts with
  // an empty one; and a source without a usable endpoint loses its snapshot but
  // not its publisher and its sequence.
  function Rebound(slot: Slot, generation: Option<PublisherKey>): Slot {
    match generation
    case None => slot.(latest := None)
    case Some(g) =>
      if slot.generation == Some(g) then slot else slot.(generation := Some(g), lastSequence := None, latest := None)
  }

  lemma ReportedAs(cfg: EngineConfig, endpoints: seq<SourceEndpoint>, k: nat)
    requires CoversSources(cfg.sources, endpoints) && k < |endpoints|
    ensures endpoints[k].sourceId in EndpointMap(endpoints)
    ensures EndpointMap(endpoints)[endpoints[k].sourceId] == endpoints[k]
  {
    EndpointMapCovers(endpoints);
    var x := endpoints[k].sourceId;
    assert x in EndpointMap(endpoints).Keys;
    var j :| 0 <= j < |endpoints| && endpoints[j] == EndpointMap(endpoints)[x];
    assert endpoints[j].sourceId == x;
  }

  lemma HealthTaken(cfg: EngineConfig, s: EngineState, e: HealthEvent)
    requires cfg.Valid() && Inv(cfg, s) && HealthEventAllowed(cfg, s, e)
    ensures var t := ApplyHealth(cfg, s, e).state;
            && t.vitals.revision == e.revision && t.timing == s.timing.(lastSteady := Some(e.steadyNs))
            && (s.vitals.epoch < MAX_UINT64 ==> t.vitals.health == e.health)
            && t.arbiter == s.arbiter && t.machine == s.machine
            && t.configured == s.configured && t.active == s.active && t.lastSequence == s.lastSequence
  {
    HealthThrowsExactly(cfg, s, e);
  }

  // And this is what it does to the slot of each source it reports.
  lemma HealthBinds(cfg: EngineConfig, s: EngineState, e: HealthEvent, k: nat)
    requires cfg.Valid() && Inv(cfg, s) && HealthEventAllowed(cfg, s, e) && k < |e.endpoints|
    ensures var x, t := e.endpoints[k].sourceId, ApplyHealth(cfg, s, e).state;
            && x in s.bindings.slots && x in t.bindings.slots && x in t.bindings.endpoints
            && t.bindings.endpoints[x] == e.endpoints[k]
            && t.bindings.slots[x] == Rebound(s.bindings.slots[x], e.endpoints[k].generation)
  {
    var x, next := e.endpoints[k].sourceId, EndpointMap(e.endpoints);
    ReportedWellFormed(cfg, e.endpoints);
    ReportedAs(cfg, e.endpoints, k);
    BindAllKeeps(cfg, cfg.sources, s.bindings, next, s.timing.lastSteady);
    assert SourceInv(cfg, x, s.bindings.slots[x], s.bindings.endpoints[x], s.timing.lastSteady);
    assert WellFormedEndpoint(e.endpoints[k]);
    BoundIs(cfg, x, s.bindings.slots[x], e.endpoints[k]);
  }

  lemma BoundIs(cfg: EngineConfig, x: string, slot: Slot, endpoint: SourceEndpoint)
    requires SlotInv(x, slot) && WellFormedEndpoint(endpoint)
    ensures BindSlot(slot, endpoint) == Some(Rebound(slot, endpoint.generation))
  {
  }

  // --------------------------------------------------------------- samples

  // The sample comes from the publisher its source is bound to, and is
  // admissible by the rules, the source's policy and the gateway's clock.
  predicate Acceptable(cfg: EngineConfig, s: EngineState, e: SampleEvent) {
    var x := e.expectedSourceId;
    && x in s.bindings.slots && x in s.bindings.endpoints && x in cfg.policy
    && s.bindings.endpoints[x].generation == Some(e.generation)
    && Admissible(e.command,
                  Context(x, e.generation, s.bindings.slots[x].lastSequence, cfg.policy[x].priority, e.nowRosNs,
                          s.vitals.health.rosClockHealthy, e.steadyNs),
                  cfg.rules)
  }

  // The slot after an accepted sample.
  function Refreshed(cfg: EngineConfig, slot: Slot, e: SampleEvent): Slot
    requires e.expectedSourceId in cfg.policy
  {
    slot.(latest := Some(SourceSnapshot(
                           e.expectedSourceId, cfg.policy[e.expectedSourceId].priority, e.generation,
                           e.command.sourceSequence, ToNanoseconds(e.command.sourceStamp),
                           if e.command.mode == 0 then Normal else Hold,
                           e.command.linearVelocity, e.command.angularVelocity, e.steadyNs)),
          lastSequence := Some(e.command.sourceSequence), accepted := slot.accepted + 1)
  }

  lemma VerdictIs(cfg: EngineConfig, s: EngineState, e: SampleEvent)
    requires cfg.Valid() && Inv(cfg, s) && SampleVerdict(cfg, s, e).Some?
    ensures e.expectedSourceId in cfg.sources
    ensures SampleVerdict(cfg, s, e).value.Ok? <==> Acceptable(cfg, s, e)
    ensures SampleVerdict(cfg, s, e).value.Err?
            && s.bindings.endpoints[e.expectedSourceId].generation != Some(e.generation) ==>
              SampleVerdict(cfg, s, e).value.error ==
              if s.bindings.endpoints[e.expectedSourceId].state.Ambiguous? then SourceEndpointAmbiguous
              else PublisherGenerationUnstable
  {
    var x := e.expectedSourceId;
    assert SourceInv(cfg, x, s.bindings.slots[x], s.bindings.endpoints[x], s.timing.lastSteady);
    CommandValidator.AcceptsExactly(e.command, SampleContext(cfg, s, s.bindings.slots[x], e), cfg.rules);
  }

  // An accepted sample becomes the snapshot of its source, a refused one only
  // counts, and either leaves its evidence.
  lemma SampleTaken(cfg: EngineConfig, s: EngineState, e: SampleEvent)
    requires cfg.Valid() && Inv(cfg, s) && ApplySample(cfg, s, e).Done?
    ensures e.expectedSourceId in cfg.sources
    ensures var x, t := e.expectedSourceId, ApplySample(cfg, s, e).state;
            && Covers(cfg, t.bindings) && t.bindings.endpoints == s.bindings.endpoints
            && (forall y :: y in cfg.sources && y != x ==> t.bindings.slots[y] == s.bindings.slots[y])
            && (Acceptable(cfg, s, e) ==> t.bindings.slots[x] == Refreshed(cfg, s.bindings.slots[x], e))
            && (!Acceptable(cfg, s, e) ==>
                  && t.bindings.slots[x].lastReject.Some?
                  && t.bindings.slots[x] == s.bindings.slots[x].(lastReject := t.bindings.slots[x].lastReject,
                                                                 rejected := s.bindings.slots[x].rejected + 1))
            && t.vitals == s.vitals.(
                 pending := s.vitals.pending +
                   [M.Evidence(M.CandidateKey(x, e.generation),
                               if Acceptable(cfg, s, e) then None else t.bindings.slots[x].lastReject, s.vitals.epoch)])
            && t.timing == s.timing.(lastSteady := Some(e.steadyNs))
            && t.arbiter == s.arbiter && t.machine == s.machine && t.active && t.configured
  {
    SampleKeeps(cfg, s, e);
    SampleCommits(cfg, s, e);
    VerdictIs(cfg, s, e);
    SlotAfter(cfg, s, e);
  }

  lemma SlotAfter(cfg: EngineConfig, s: EngineState, e: SampleEvent)
    requires cfg.Valid() && Inv(cfg, s) && SampleVerdict(cfg, s, e).Some?
    ensures e.expectedSourceId in cfg.sources && e.expectedSourceId in s.bindings.slots
    ensures var slot := s.bindings.slots[e.expectedSourceId];
            match SampleVerdict(cfg, s, e).value
            case Ok(_) => Commit(slot, SampleVerdict(cfg, s, e).value) == Some(Refreshed(cfg, slot, e))
            case Err(reason) =>
              Commit(slot, SampleVerdict(cfg, s, e).value) ==
              Some(slot.(lastReject := Some(reason), rejected := slot.rejected + 1))
  {
    SampleCommits(cfg, s, e);
    var slot := s.bindings.slots[e.expectedSourceId];
    if SampleVerdict(cfg, s, e).value.Ok? {
      CommandValidator.AcceptsExactly(e.command, SampleContext(cfg, s, slot, e), cfg.rules);
    }
  }

  // ----------------------------------------------------------------- ticks

  // The interval since the last tick of this active period is too long.
  predicate IsLate(cfg: EngineConfig, s: EngineState, e: TickEvent) {
    s.timing.lastTick.Some? && e.steadyNs - s.timing.lastTick.value > cfg.lateThresholdMs * 1_000_000
  }

  // A tick counts the late ones in a row, and is healthy while they are fewer
  // than the threshold.
  lemma TickCounted(cfg: EngineConfig, s: EngineState, e: TickEvent)
    requires TickAllowed(cfg, s, e) && s.vitals.epoch < MAX_UINT64
    ensures var c := Counted(cfg, s, e);
            && c.timing.lastTick == Some(e.steadyNs) && c.timing.lastSteady == s.timing.lastSteady
            && c.timing.lateTicks == (if s.timing.lastTick.None? then s.timing.lateTicks
                                      else if !IsLate(cfg, s, e) then 0
                                      else if s.timing.lateTicks < MAX_UINT64 then s.timing.lateTicks + 1
                                      else MAX_UINT64)
            && c.vitals.health == s.vitals.health.(outputTickHealthy := c.timing.lateTicks < cfg.lateTicksToSafeStop)
            && c.vitals.pending == (if Flips(s.vitals, c.vitals) then [] else s.vitals.pending)
            && c.vitals.revision == s.vitals.revision
            && c.bindings == s.bindings && c.arbiter == s.arbiter && c.machine == s.machine
  {
  }

  lemma VerdictOnTick(cfg: EngineConfig, s: EngineState, e: TickEvent)
    requires TickAllowed(cfg, s, e)
    ensures var c := Counted(cfg, s, e);
            c.vitals.health.outputTickHealthy <==> c.timing.lateTicks < cfg.lateTicksToSafeStop
  {
  }

  // So the health of the output is exactly that the run of late intervals that
  // ends the active period is shorter than the threshold.
  lemma LateRunDecides(cfg: EngineConfig, run: Run, n: nat)
    requires cfg.Valid() && IsRun(cfg, run) && n < |run.events| && run.outcomes[n].Done?
    requires run.events[n].payload.OutputTick? && cfg.lateTicksToSafeStop <= MAX_UINT64
    ensures run.states[n + 1].vitals.health.outputTickHealthy <==>
            LateRun(PeriodTicks(run.events, run.outcomes, n + 1), cfg.lateThresholdMs * 1_000_000)
            < cfg.lateTicksToSafeStop
  {
    StatesKeepInv(cfg, run, n);
    assert IsStep(cfg, run, n);
    var s, e := run.states[n], run.events[n].payload.tick;
    TickDecides(cfg, s, run.events[n].sequence, e);
    VerdictOnTick(cfg, s, e);
    LateCountIsTrailingRun(cfg, run, n + 1);
  }

  // The state machine is handed the health with that verdict, the arbiter's
  // choice among the snapshots in the slots, and the pending evidence.
  lemma TickDecides(cfg: EngineConfig, s: EngineState, sequence: uint64, e: TickEvent)
    requires cfg.Valid() && Inv(cfg, s) && ApplyTick(cfg, s, sequence, e).Done?
    ensures TickAllowed(cfg, s, e)
    ensures var c, r := Counted(cfg, s, e), ApplyTick(cfg, s, sequence, e);
            var arbitrated := A.Arbitrate(s.arbiter, Collected(cfg.sources, s.bindings.slots),
                                          A.ArbiterRules(cfg.rules.commandTimeoutMs, cfg.switchHoldMs, cfg.policy),
                                          e.nowRosNs, e.steadyNs);
            && r.result.Some? && arbitrated.Some?
            && r.state.arbiter == arbitrated.value.0
            && (r.state.machine, MachineDecision(cfg, s, e)) ==
                 M.Evaluate(s.machine, M.Input(c.vitals.health, arbitrated.value.1, c.vitals.pending, c.vitals.epoch),
                            cfg.recoveryValidSamples)
            && r.state.vitals == c.vitals.(pending := [])
            && r.state.timing == c.timing.(lastSteady := Some(e.steadyNs))
            && r.state.bindings == s.bindings && r.state.active && r.state.configured
  {
    TickKeeps(cfg, s, sequence, e);
    CountedIsDecidable(cfg, s, e);
    SelectionIsHeld(cfg, Counted(cfg, s, e), e);
  }

  // The decision of a tick.
  function MachineDecision(cfg: EngineConfig, s: EngineState, e: TickEvent): M.Decision
    requires cfg.Valid() && Covers(cfg, s.bindings) && TickAllowed(cfg, s, e)
    requires ArbitrationOf(cfg, Counted(cfg, s, e), e).Some?
  {
    DecisionOf(cfg, Counted(cfg, s, e), e)
  }

  // A HOLD names the selected source, its sequence and its stamp, or nobody; and
  // the report repeats the decision.
  lemma TickAnswers(cfg: EngineConfig, s: EngineState, sequence: uint64, e: TickEvent)
    requires cfg.Valid() && Inv(cfg, s) && ApplyTick(cfg, s, sequence, e).Done?
    ensures TickAllowed(cfg, s, e) && ArbitrationOf(cfg, Counted(cfg, s, e), e).Some?
    ensures var d, r := MachineDecision(cfg, s, e), ApplyTick(cfg, s, sequence, e).result;
            && r.Some? && r.value.sequence == sequence && r.value.state == d.state && r.value.reason == d.reason
            && r.value.recoveryValidCount == d.recoveryValidCount && r.value.transitionSequence == d.transitionSequence
            && (r.value.lifecycleErrorRequested <==> d.state.Error?)
            && r.value.recoveryCandidate == (if d.state.Recovering? && d.selected.Some?
                                             then Some(M.CandidateKey(d.selected.value.sourceId, d.selected.value.generation))
                                             else None)
            && (d.state.Active? ==> d.selected.Some?)
            && (d.selected.None? ==>
                  r.value.canonical == ControlCommand(Stamp(0, 0), "", 0, 1, Finite(0.0), Finite(0.0)))
            && (d.selected.Some? ==>
                  && r.value.canonical.sourceId == d.selected.value.sourceId
                  && r.value.canonical.sourceSequence == d.selected.value.sequence
                  && ToNanoseconds(r.value.canonical.sourceStamp) == d.selected.value.sourceStampNs
                  && (d.state.Active? ==>
                        && r.value.canonical.linearVelocity == d.selected.value.linearVelocity
                        && r.value.canonical.angularVelocity == d.selected.value.angularVelocity
                        && r.value.canonical.mode == if d.selected.value.mode.Normal? then 0 else 1)
                  && (!d.state.Active? ==>
                        && r.value.canonical.linearVelocity == r.value.canonical.angularVelocity == Finite(0.0)
                        && r.value.canonical.mode == 1))
  {
    TickPublishes(cfg, s, sequence, e);
  }

  // ------------------------------------------------- evidence over a history

  // Whatever makes the engine drop the evidence it has gathered.
  predicate Drops(run: Run, i: nat)
    requires i < |run.events| == |run.outcomes| && |run.states| == |run.events| + 1
  {
    || Flips(run.states[i].vitals, run.states[i + 1].vitals)
    || run.events[i].payload.OutputTick?
    || (run.events[i].payload.Lifecycle? && run.events[i].payload.success
        && !run.events[i].payload.transition.Configure? && !run.events[i].payload.transition.Cleanup?)
  }

  // The evidence that a history leaves for its next tick.
  ghost function Gathered(cfg: EngineConfig, run: Run, n: nat): seq<M.Evidence>
    requires n <= |run.events| == |run.outcomes| && |run.states| == |run.events| + 1
  {
    if n == 0 then []
    else
      var before := Gathered(cfg, run, n - 1);
      if run.outcomes[n - 1].Threw? then before
      else if Drops(run, n - 1) then []
      else
        match EvidenceOf(cfg, run.states[n - 1], run.events[n - 1])
        case Some(evidence) => before + [evidence]
        case None => before
  }

  lemma TransitionPending(s: EngineState, transition: Transition)
    requires s.vitals.epoch < MAX_UINT64 && ApplyLifecycle(s, transition, true).Done?
    ensures var t := ApplyLifecycle(s, transition, true).state;
            t.vitals.pending ==
            if Flips(s.vitals, t.vitals) || !(transition.Configure? || transition.Cleanup?) then [] else s.vitals.pending
  {
  }

  lemma HealthPending(cfg: EngineConfig, s: EngineState, e: HealthEvent)
    requires cfg.Valid() && Covers(cfg, s.bindings) && s.vitals.epoch < MAX_UINT64 && ApplyHealth(cfg, s, e).Done?
    ensures var t := ApplyHealth(cfg, s, e).state;
            t.vitals.pending == if Flips(s.vitals, t.vitals) then [] else s.vitals.pending
  {
  }

  // One event of a history, accepted.
  lemma PendingMoves(cfg: EngineConfig, s: EngineState, e: Event)
    requires cfg.Valid() && Inv(cfg, s) && s.vitals.epoch < MAX_UINT64 && ApplyPayload(cfg, s, e).Done?
    ensures var t, evidence := ApplyPayload(cfg, s, e).state, EvidenceOf(cfg, s, e);
            t.vitals.pending ==
            if Flips(s.vitals, t.vitals) || e.payload.OutputTick?
               || (e.payload.Lifecycle? && e.payload.success && !e.payload.transition.Configure?
                   && !e.payload.transition.Cleanup?) then []
            else if evidence.Some? then s.vitals.pending + [evidence.value] else s.vitals.pending
  {
    match e.payload
    case Lifecycle(transition, success) =>
      if success {
        TransitionPending(s, transition);
      }
    case HealthSnapshot(snapshot) => HealthPending(cfg, s, snapshot);
    case Sample(sample) => SampleTaken(cfg, s, sample);
    case OutputTick(tick) => TickDecides(cfg, s, e.sequence, tick);
  }

  // Every judged sample since the last tick is there, in order.
  lemma {:induction false} PendingIsGathered(cfg: EngineConfig, run: Run, n: nat)
    requires cfg.Valid() && IsRun(cfg, run) && n < |run.states| && HealthChanges(run.states, n) < MAX_UINT64
    ensures run.states[n].vitals.pending == Gathered(cfg, run, n)
  {
    if n > 0 {
      EpochBelow(cfg, run, n);
      EpochBelow(cfg, run, n - 1);
      PendingIsGathered(cfg, run, n - 1);
      if run.outcomes[n - 1].Threw? {
        RefusedChangesNothing(cfg, run, n - 1);
      } else {
        StatesKeepInv(cfg, run, n - 1);
        assert IsStep(cfg, run, n - 1);
        PendingMoves(cfg, run.states[n - 1], run.events[n - 1]);
      }
    }
  }
}
