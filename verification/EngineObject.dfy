// The decision engine as the object the gateway drives: fields updated in
// place, one method per member function, each proved against the functions of
// DecisionEngine.
module EngineObject {
  import opened Common
  import opened Messages
  import opened CommandValidator
  import opened SourceRuntime
  import opened DecisionEngine
  import A = SourceArbiter
  import M = GatewayStateMachine

  class Engine {
    const cfg: EngineConfig
    var slots: map<string, Slot>
    var endpoints: map<string, SourceEndpoint>
    var health: M.Health
    var pending: seq<M.Evidence>
    var healthRevision: uint64
    var healthEpoch: uint64
    var recoveryHealthy: bool
    var lastSequence: uint64
    var lastSteady: Option<int64>
    var lastTick: Option<int64>
    var lateTicks: uint64
    var configured: bool
    var active: bool
    var arbiter: A.Arbiter
    var machine: M.StateMachine

    ghost function BindingsOf(): Bindings
      reads this
    {
      Bindings(slots, endpoints)
    }

    ghost function VitalsOf(): Vitals
      reads this
    {
      Vitals(health, healthRevision, healthEpoch, recoveryHealthy, pending)
    }

    ghost function TimingOf(): Timing
      reads this
    {
      Timing(lastSteady, lastTick, lateTicks)
    }

    ghost function State(): EngineState
      reads this, arbiter, machine
    {
      EngineState(BindingsOf(), VitalsOf(), TimingOf(), arbiter.State(), machine.State(), lastSequence, configured, active)
    }

    ghost predicate Valid()
      reads this, arbiter, machine
    {
      && cfg.Valid() && Covers(cfg, BindingsOf())
      && arbiter.rules == cfg.ArbiterRules() && machine.recoveryValidSamples == cfg.recoveryValidSamples
    }

    constructor (cfg: EngineConfig)
      requires cfg.Valid()
      ensures Valid() && State() == Initial(cfg) && fresh(arbiter) && fresh(machine)
    {
      this.cfg := cfg;
      slots := map x | x in cfg.sources :: EMPTY_SLOT;
      endpoints := map x | x in cfg.sources :: SourceEndpoint(x, Missing, None);
      health, pending, healthRevision, healthEpoch := M.DEFAULT_HEALTH, [], 0, 0;
      recoveryHealthy, lastSequence, lastSteady, lastTick, lateTicks := false, 0, None, None, 0;
      configured, active := false, false;
      arbiter := new A.Arbiter(cfg.ArbiterRules());
      machine := new M.StateMachine(cfg.recoveryValidSamples);
      new;
      UpdateHealthEpoch();
    }

    method UpdateHealthEpoch()
      modifies `health, `pending, `healthEpoch, `recoveryHealthy
      ensures VitalsOf() == UpdateEpoch(old(VitalsOf()))
    {
      var healthy := M.AllHealthy(health);
      if healthy == recoveryHealthy {
        return;
      }
      pending := [];
      if healthEpoch == MAX_UINT64 {
        health := health.(internalInvariantsHealthy := false);
        recoveryHealthy := false;
        return;
      }
      healthEpoch := healthEpoch + 1;
      recoveryHealthy := healthy;
    }

    method ResetActiveDecisionState()
      modifies `arbiter, `machine, `health, `pending, `healthEpoch, `recoveryHealthy, `lastTick, `lateTicks
      ensures fresh(arbiter) && arbiter.rules == cfg.ArbiterRules() && arbiter.State() == A.NO_HISTORY
      ensures fresh(machine) && machine.recoveryValidSamples == cfg.recoveryValidSamples && machine.State() == M.INITIAL
      ensures TimingOf() == old(TimingOf()).(lastTick := None, lateTicks := 0)
      ensures VitalsOf() ==
              UpdateEpoch(old(VitalsOf()).(pending := [], health := old(health).(outputTickHealthy := true)))
    {
      arbiter := new A.Arbiter(cfg.ArbiterRules());
      machine := new M.StateMachine(cfg.recoveryValidSamples);
      pending := [];
      lastTick, lateTicks := None, 0;
      health := health.(outputTickHealthy := true);
      UpdateHealthEpoch();
    }

    // False stands for an exception, here and below.
    method ApplyLifecycleEvent(transition: Transition, success: bool) returns (ok: bool)
      requires Valid()
      modifies this
      ensures Valid()
      ensures (if ok then Done(State(), None) else Threw(State())) == ApplyLifecycle(old(State()), transition, success)
      ensures arbiter == old(arbiter) || fresh(arbiter)
      ensures machine == old(machine) || fresh(machine)
    {
      if !success {
        return true;
      }
      match transition {
        case Configure =>
          if configured || active {
            return false;
          }
          configured := true;
        case Activate =>
          if !configured || active || healthRevision == 0 {
            return false;
          }
          ResetActiveDecisionState();
          active := true;
        case Deactivate =>
          if !configured || !active {
            return false;
          }
          active := false;
          pending := [];
          lastTick, lateTicks := None, 0;
        case Cleanup =>
          if !configured || active {
            return false;
          }
          configured := false;
        case ErrorTransition =>
          active := false;
          pending := [];
          lastTick := None;
      }
      return true;
    }

    method CollectEndpoints(reported: seq<SourceEndpoint>) returns (r: Option<map<string, SourceEndpoint>>)
      requires Valid()
      ensures r.Some? <==> CoversSources(cfg.sources, reported)
      ensures r.Some? ==> r.value == EndpointMap(reported)
    {
      if |reported| != |cfg.sources| {
        return None;
      }
      var next: map<string, SourceEndpoint> := map[];
      for i := 0 to |reported|
        invariant next == EndpointMap(reported[..i])
        invariant forall k :: 0 <= k < i ==> reported[k].sourceId in cfg.sources && WellFormedEndpoint(reported[k])
        invariant forall j, k :: 0 <= j < k < i ==> reported[j].sourceId != reported[k].sourceId
      {
        assert reported[..i + 1][..i] == reported[..i];
        EndpointMapCovers(reported[..i]);
        var e := reported[i];
        if e.sourceId !in slots {
          return None;
        }
        if e.sourceId in next {
          assert exists k :: 0 <= k < i && reported[k].sourceId == reported[i].sourceId;
          return None;
        }
        if e.state.Usable? != e.generation.Some? {
          assert !WellFormedEndpoint(reported[i]);
          return None;
        }
        next := next[e.sourceId := e];
      }
      assert reported[..|reported|] == reported;
      return Some(next);
    }

    method BindSlots(next: map<string, SourceEndpoint>) returns (ok: bool)
      requires forall x :: x in cfg.sources ==> x in slots && x in next
      modifies `slots
      ensures (slots, ok) == BindAll(cfg.sources, old(slots), next)
    {
      for i := 0 to |cfg.sources|
        invariant slots.Keys == old(slots).Keys
        invariant (slots, true) == BindAll(cfg.sources[..i], old(slots), next)
      {
        assert cfg.sources[..i + 1][..i] == cfg.sources[..i];
        var x := cfg.sources[i];
        var bound := BindSlot(slots[x], next[x]);
        if bound.None? {
          BindAllStops(cfg.sources, old(slots), next, i + 1);
          return false;
        }
        slots := slots[x := bound.value];
      }
      assert cfg.sources[..|cfg.sources|] == cfg.sources;
      return true;
    }

    method CommitHealth(next: map<string, SourceEndpoint>, e: HealthEvent) returns (ok: bool)
      requires forall x :: x in cfg.sources ==> x in slots && x in next
      modifies `slots, `endpoints, `health, `pending, `healthRevision, `healthEpoch, `recoveryHealthy, `lastSteady
      ensures (if ok then Done(State(), None) else Threw(State())) == HealthCommitted(cfg, old(State()), next, e)
    {
      ok := BindSlots(next);
      if ok {
        TakeHealth(next, e);
      }
    }

    method TakeHealth(next: map<string, SourceEndpoint>, e: HealthEvent)
      modifies `endpoints, `health, `pending, `healthRevision, `healthEpoch, `recoveryHealthy, `lastSteady
      ensures BindingsOf() == Bindings(slots, next) && VitalsOf() == HealthVitals(old(VitalsOf()), e)
      ensures TimingOf() == old(TimingOf()).(lastSteady := Some(e.steadyNs))
    {
      endpoints := next;
      health, healthRevision := e.health, e.revision;
      UpdateHealthEpoch();
      lastSteady := Some(e.steadyNs);
    }

    method ApplyHealthEvent(e: HealthEvent) returns (ok: bool)
      requires Valid()
      modifies `slots, `endpoints, `health, `pending, `healthRevision, `healthEpoch, `recoveryHealthy, `lastSteady
      ensures Valid()
      ensures (if ok then Done(State(), None) else Threw(State())) == ApplyHealth(cfg, old(State()), e)
    {
      var next := CheckHealth(e);
      if next.None? {
        return false;
      }
      CoveredByAll(cfg.sources, e.endpoints);
      ok := CommitHealth(next.value, e);
    }

    // None stands for an exception.
    method CheckHealth(e: HealthEvent) returns (next: Option<map<string, SourceEndpoint>>)
      requires Valid()
      ensures next.Some? <==> HealthEventAllowed(cfg, State(), e)
      ensures next.Some? ==> next.value == EndpointMap(e.endpoints)
    {
      if !configured || healthRevision == MAX_UINT64 || e.revision != healthRevision + 1 {
        return None;
      }
      if e.steadyNs < 0 || (lastSteady.Some? && e.steadyNs < lastSteady.value) {
        return None;
      }
      next := CollectEndpoints(e.endpoints);
    }

    // None stands for an exception.
    method JudgeSample(e: SampleEvent) returns (verdict: Option<Result<SourceSnapshot, RejectReason>>)
      ensures verdict == SampleVerdict(cfg, State(), e)
    {
      var x := e.expectedSourceId;
      if !configured || !active || e.steadyNs < 0 || (lastSteady.Some? && e.steadyNs < lastSteady.value) {
        return None;
      }
      if x !in slots || x !in endpoints {
        return None;
      }
      var slot, endpoint := slots[x], endpoints[x];
      if !(endpoint.state.Usable? && endpoint.generation.Some? && endpoint.generation.value == e.generation) {
        return Some(Err(if endpoint.state.Ambiguous? then SourceEndpointAmbiguous else PublisherGenerationUnstable));
      }
      if !MatchesGeneration(slot, e.generation) || x !in cfg.policy {
        return None;
      }
      var context := Context(x, e.generation, slot.lastSequence, cfg.policy[x].priority, e.nowRosNs,
                             health.rosClockHealthy, e.steadyNs);
      return Some(Validate(e.command, context, cfg.rules));
    }

    method ApplySourceSample(e: SampleEvent) returns (ok: bool)
      requires Valid()
      modifies `slots, `pending, `lastSteady
      ensures Valid()
      ensures (if ok then Done(State(), None) else Threw(State())) == ApplySample(cfg, old(State()), e)
    {
      var x := e.expectedSourceId;
      var verdict := JudgeSample(e);
      if verdict.None? {
        return false;
      }
      var committed := Commit(slots[x], verdict.value);
      if committed.None? {
        return false;
      }
      RecordSample(x, committed.value, M.Evidence(M.CandidateKey(x, e.generation), ResultOf(verdict.value), healthEpoch),
                   e.steadyNs);
      return true;
    }

    method RecordSample(x: string, slot: Slot, evidence: M.Evidence, steadyNs: int64)
      requires x in slots
      modifies `slots, `pending, `lastSteady
      ensures BindingsOf() == old(BindingsOf()).(slots := old(slots)[x := slot]) && slots.Keys == old(slots).Keys
      ensures VitalsOf() == old(VitalsOf()).(pending := old(pending) + [evidence])
      ensures TimingOf() == old(TimingOf()).(lastSteady := Some(steadyNs))
    {
      slots := slots[x := slot];
      pending := pending + [evidence];
      lastSteady := Some(steadyNs);
    }

    // None stands for an exception.
    method DescribeOutputTick(steadyNs: int64, nowRosNs: int64) returns (r: Option<TickEvent>)
      ensures r == DescribeTick(cfg, State(), steadyNs, nowRosNs)
    {
      if steadyNs < 0 || (lastSteady.Some? && steadyNs < lastSteady.value) {
        return None;
      }
      var interval := 0;
      if lastTick.Some? {
        interval := steadyNs - lastTick.value;
      }
      var period := OutputPeriodNs(cfg.outputRateHz);
      if period.None? {
        return None;
      }
      return Some(TickEvent(steadyNs, nowRosNs, interval,
                            if interval > period.value then interval - period.value else 0, healthRevision));
    }

    // Counts a late tick or ends the run of late ticks.
    method CountTick(intervalNs: int, steadyNs: int64) returns (ok: bool)
      modifies `lateTicks, `lastTick
      ensures ok <==> CountLate(old(TimingOf()), cfg.lateThresholdMs, intervalNs).Some?
      ensures TimingOf() ==
              if ok then old(TimingOf()).(lastTick := Some(steadyNs),
                                          lateTicks := CountLate(old(TimingOf()), cfg.lateThresholdMs, intervalNs).value)
              else old(TimingOf())
    {
      if lastTick.Some? {
        var threshold := CheckedMilliseconds(cfg.lateThresholdMs);
        if threshold.None? {
          return false;
        }
        if intervalNs > threshold.value {
          if lateTicks < MAX_UINT64 {
            lateTicks := lateTicks + 1;
          }
        } else {
          lateTicks := 0;
        }
      }
      lastTick := Some(steadyNs);
      return true;
    }

    method SourceStatuses(e: TickEvent) returns (r: Option<seq<SourceStatus>>)
      requires Valid()
      ensures r == StatusesOf(cfg, cfg.sources, BindingsOf(), e)
    {
      var statuses: seq<SourceStatus> := [];
      for i := 0 to |cfg.sources|
        invariant StatusesOf(cfg, cfg.sources[..i], BindingsOf(), e) == Some(statuses)
      {
        StatusesNext(cfg, cfg.sources, BindingsOf(), e, i);
        var x := cfg.sources[i];
        var status := StatusOf(cfg, x, slots[x], endpoints[x], e);
        if status.None? {
          StatusesStop(cfg, cfg.sources, BindingsOf(), e, i + 1);
          return None;
        }
        statuses := statuses + [status.value];
      }
      assert cfg.sources[..|cfg.sources|] == cfg.sources;
      return Some(statuses);
    }

    // The second half of a tick: the vitals and the late count are up to date.
    method DecideTick(sequence: uint64, e: TickEvent) returns (ok: bool, result: Option<DecisionResult>)
      requires Valid()
      modifies `pending, `lastSteady, arbiter, machine
      ensures (if ok then Done(State(), result) else Threw(State())) == Decide(cfg, old(State()), sequence, e)
    {
      result := None;
      var snapshots := CollectLatestValidSnapshots(cfg.sources, slots);
      if snapshots.None? {
        return false, None;
      }
      var arbitration := arbiter.EvaluateTick(snapshots.value, e.nowRosNs, e.steadyNs);
      if arbitration.None? {
        return false, None;
      }
      var evidences := pending;
      pending := [];
      var d := machine.EvaluateTick(M.Input(health, arbitration.value, evidences, healthEpoch));
      var canonical := CanonicalCommand(d);
      if canonical.None? {
        return false, None;
      }
      var statuses := SourceStatuses(e);
      if statuses.None? {
        return false, None;
      }
      lastSteady := Some(e.steadyNs);
      result := Some(DecisionResult(
        sequence, d.state, d.reason,
        if d.state.Recovering? && d.selected.Some? then Some(M.CandidateOf(d.selected.value)) else None,
        d.recoveryValidCount, d.transitionSequence, canonical.value, d.state.Error?, statuses.value));
      return true, result;
    }

    method CheckTick(e: TickEvent) returns (ok: bool)
      ensures ok <==> && configured && active && e.healthRevision == healthRevision && healthRevision != 0
                      && DescribeTick(cfg, State(), e.steadyNs, e.nowRosNs) == Some(e)
    {
      if !configured || !active || e.healthRevision != healthRevision || healthRevision == 0 {
        return false;
      }
      var described := DescribeOutputTick(e.steadyNs, e.nowRosNs);
      return described.Some? && e.intervalNs == described.value.intervalNs && e.latenessNs == described.value.latenessNs;
    }

    method CountIntoHealth(e: TickEvent) returns (ok: bool)
      requires Valid()
      modifies `health, `pending, `healthEpoch, `recoveryHealthy, `lastTick, `lateTicks
      ensures ok <==> CountLate(old(TimingOf()), cfg.lateThresholdMs, e.intervalNs).Some?
      ensures State() == if ok then Counted(cfg, old(State()), e) else old(State())
    {
      ok := CountTick(e.intervalNs, e.steadyNs);
      if !ok {
        return;
      }
      health := health.(outputTickHealthy := lateTicks < cfg.lateTicksToSafeStop);
      UpdateHealthEpoch();
    }

    // The check for a threshold of zero is left out: a valid configuration has
    // none.
    method ApplyOutputTick(sequence: uint64, e: TickEvent) returns (ok: bool, result: Option<DecisionResult>)
      requires Valid()
      modifies `health, `pending, `healthEpoch, `recoveryHealthy, `lastSteady, `lastTick, `lateTicks, arbiter, machine
      ensures Valid()
      ensures (if ok then Done(State(), result) else Threw(State())) == ApplyTick(cfg, old(State()), sequence, e)
    {
      ok := CheckTick(e);
      if !ok {
        return false, None;
      }
      ok := CountIntoHealth(e);
      if !ok {
        return false, None;
      }
      ok, result := DecideTick(sequence, e);
    }

    method Dispatch(e: Event) returns (ok: bool, result: Option<DecisionResult>)
      requires Valid()
      modifies this, arbiter, machine
      ensures Valid()
      ensures (if ok then Done(State(), result) else Threw(State())) == ApplyPayload(cfg, old(State()), e)
    {
      result := None;
      match e.payload {
        case Lifecycle(transition, success) =>
          ok := ApplyLifecycleEvent(transition, success);
        case HealthSnapshot(snapshot) =>
          ok := ApplyHealthEvent(snapshot);
        case Sample(sample) =>
          ok := ApplySourceSample(sample);
        case OutputTick(tick) =>
          ok, result := ApplyOutputTick(e.sequence, tick);
      }
    }

    method ApplyEvent(e: Event) returns (ok: bool, result: Option<DecisionResult>)
      requires Valid()
      modifies this, arbiter, machine
      ensures Valid()
      ensures (if ok then Done(State(), result) else Threw(State())) ==
              DecisionEngine.ApplyEvent(cfg, old(State()), e)
    {
      if lastSequence == MAX_UINT64 || e.sequence != lastSequence + 1 {
        return false, None;
      }
      ok, result := Dispatch(e);
      if ok {
        lastSequence := e.sequence;
      }
    }
  }

  // A slot that throws stops the loop: the slots stay as they were bound so
  // far.
  lemma {:induction false} BindAllStops(sources: seq<string>, slots: map<string, Slot>,
                                        endpoints: map<string, SourceEndpoint>, n: nat)
    requires n <= |sources| && forall x :: x in sources ==> x in slots && x in endpoints
    requires !BindAll(sources[..n], slots, endpoints).1
    ensures BindAll(sources, slots, endpoints) == BindAll(sources[..n], slots, endpoints)
    decreases |sources|
  {
    if n < |sources| {
      assert sources[..|sources| - 1][..n] == sources[..n];
      BindAllStops(sources[..|sources| - 1], slots, endpoints, n);
    } else {
      assert sources[..n] == sources;
    }
  }

  lemma StatusesNext(cfg: EngineConfig, sources: seq<string>, b: Bindings, e: TickEvent, i: nat)
    requires i < |sources| && forall x :: x in sources ==> x in b.slots && x in b.endpoints
    ensures var before := StatusesOf(cfg, sources[..i], b, e);
            var status := StatusOf(cfg, sources[i], b.slots[sources[i]], b.endpoints[sources[i]], e);
            StatusesOf(cfg, sources[..i + 1], b, e) ==
            if before.None? || status.None? then None else Some(before.value + [status.value])
  {
    assert sources[..i + 1][..i] == sources[..i];
  }

  lemma {:induction false} StatusesStop(cfg: EngineConfig, sources: seq<string>, b: Bindings, e: TickEvent, n: nat)
    requires n <= |sources| && forall x :: x in sources ==> x in b.slots && x in b.endpoints
    requires StatusesOf(cfg, sources[..n], b, e).None?
    ensures StatusesOf(cfg, sources, b, e).None?
    decreases |sources|
  {
    if n < |sources| {
      assert sources[..|sources| - 1][..n] == sources[..n];
      StatusesStop(cfg, sources[..|sources| - 1], b, e, n);
    } else {
      assert sources[..n] == sources;
    }
  }
}
