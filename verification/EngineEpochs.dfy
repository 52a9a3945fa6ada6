// Health epochs and the evidence recorded in them.
module EngineEpochs {
  import opened Common
  import opened Messages
  import opened DecisionEngine
  import opened EngineHistory
  import M = GatewayStateMachine

  // The evidence that a judged sample leaves behind.
  function EvidenceOf(cfg: EngineConfig, s: EngineState, e: Event): Option<M.Evidence> {
    if e.payload.Sample? && SampleVerdict(cfg, s, e.payload.sample).Some? then
      var sample := e.payload.sample;
      Some(M.Evidence(M.CandidateKey(sample.expectedSourceId, sample.generation),
                      ResultOf(SampleVerdict(cfg, s, sample).value), s.vitals.epoch))
    else None
  }

  predicate Flips(before: Vitals, after: Vitals) {
    before.recoveryHealthy != after.recoveryHealthy
  }

  // An event advances the epoch exactly when it changes the recovery health,
  // until the epoch is exhausted; evidence survives only while that does not
  // change.
  predicate VitalsMove(before: Vitals, after: Vitals, evidence: Option<M.Evidence>) {
    && after.epoch == (if Flips(before, after) && before.epoch < MAX_UINT64 then before.epoch + 1 else before.epoch)
    && (after.pending == []
        || (!Flips(before, after)
            && (after.pending == before.pending
                || (evidence.Some? && after.pending == before.pending + [evidence.value]))))
  }

  lemma UpdateMoves(before: Vitals, v: Vitals)
    requires v.epoch == before.epoch && v.recoveryHealthy == before.recoveryHealthy
    requires v.pending == before.pending || v.pending == []
    ensures VitalsMove(before, UpdateEpoch(v), None)
  {
  }

  lemma LifecycleVitals(s: EngineState, transition: Transition, success: bool)
    ensures VitalsMove(s.vitals, ApplyLifecycle(s, transition, success).state.vitals, None)
  {
    UpdateMoves(s.vitals, s.vitals.(pending := [], health := s.vitals.health.(outputTickHealthy := true)));
  }

  lemma HealthVitals(cfg: EngineConfig, s: EngineState, e: HealthEvent)
    requires cfg.Valid() && Covers(cfg, s.bindings)
    ensures VitalsMove(s.vitals, ApplyHealth(cfg, s, e).state.vitals, None)
  {
    if HealthEventAllowed(cfg, s, e) {
      UpdateMoves(s.vitals, s.vitals.(health := e.health, revision := e.revision));
    }
  }

  lemma SampleVitals(cfg: EngineConfig, s: EngineState, e: Event)
    requires e.payload.Sample?
    ensures VitalsMove(s.vitals, ApplySample(cfg, s, e.payload.sample).state.vitals, EvidenceOf(cfg, s, e))
  {
  }

  lemma CountedVitals(cfg: EngineConfig, s: EngineState, e: TickEvent)
    requires CountLate(s.timing, cfg.lateThresholdMs, e.intervalNs).Some?
    ensures VitalsMove(s.vitals, Counted(cfg, s, e).vitals, None)
  {
    var late := CountLate(s.timing, cfg.lateThresholdMs, e.intervalNs).value;
    UpdateMoves(s.vitals, s.vitals.(health := s.vitals.health.(outputTickHealthy := late < cfg.lateTicksToSafeStop)));
  }

  lemma DecideVitals(cfg: EngineConfig, c: EngineState, sequence: uint64, e: TickEvent)
    requires Covers(cfg, c.bindings)
    ensures var after := Decide(cfg, c, sequence, e).state.vitals;
            after == c.vitals || after == c.vitals.(pending := [])
  {
  }

  lemma TickVitals(cfg: EngineConfig, s: EngineState, sequence: uint64, e: TickEvent)
    requires cfg.Valid() && Covers(cfg, s.bindings)
    ensures VitalsMove(s.vitals, ApplyTick(cfg, s, sequence, e).state.vitals, None)
  {
    if TickAllowed(cfg, s, e) {
      CountedVitals(cfg, s, e);
      DecideVitals(cfg, Counted(cfg, s, e), sequence, e);
    }
  }

  lemma PayloadVitals(cfg: EngineConfig, s: EngineState, e: Event)
    requires cfg.Valid() && Covers(cfg, s.bindings)
    ensures VitalsMove(s.vitals, ApplyPayload(cfg, s, e).state.vitals, EvidenceOf(cfg, s, e))
  {
    match e.payload
    case Lifecycle(transition, success) => LifecycleVitals(s, transition, success);
    case HealthSnapshot(snapshot) => HealthVitals(cfg, s, snapshot);
    case Sample(sample) => SampleVitals(cfg, s, e);
    case OutputTick(tick) => TickVitals(cfg, s, e.sequence, tick);
  }

  lemma VitalsStep(cfg: EngineConfig, run: Run, i: nat)
    requires cfg.Valid() && IsRun(cfg, run) && i < |run.events|
    ensures VitalsMove(run.states[i].vitals, run.states[i + 1].vitals,
                       if run.outcomes[i].Done? then EvidenceOf(cfg, run.states[i], run.events[i]) else None)
  {
    StatesKeepInv(cfg, run, i);
    if run.outcomes[i].Threw? {
      RefusedChangesNothing(cfg, run, i);
    } else {
      DoneVitals(cfg, run, i);
    }
  }

  lemma DoneVitals(cfg: EngineConfig, run: Run, i: nat)
    requires cfg.Valid() && IsRun(cfg, run) && i < |run.events| && run.outcomes[i].Done?
    ensures VitalsMove(run.states[i].vitals, run.states[i + 1].vitals, EvidenceOf(cfg, run.states[i], run.events[i]))
  {
    assert IsStep(cfg, run, i);
    PayloadVitals(cfg, run.states[i], run.events[i]);
  }

  // -------------------------------------------------------------- counting

  // How often the recovery health changed before state n.
  function HealthChanges(states: seq<EngineState>, n: nat): nat
    requires n < |states|
  {
    if n == 0 then 0
    else HealthChanges(states, n - 1) + (if Flips(states[n - 1].vitals, states[n].vitals) then 1 else 0)
  }

  // The epoch is the number of changes of recovery health, over any mix of
  // events, and stays at its maximum once it is exhausted.
  lemma {:induction false} EpochCountsChanges(cfg: EngineConfig, run: Run, n: nat)
    requires cfg.Valid() && IsRun(cfg, run) && n < |run.states|
    ensures run.states[n].vitals.epoch ==
            if HealthChanges(run.states, n) < MAX_UINT64 then HealthChanges(run.states, n) else MAX_UINT64
  {
    if n > 0 {
      EpochCountsChanges(cfg, run, n - 1);
      VitalsStep(cfg, run, n - 1);
    }
  }

  // ------------------------------------------------------------- evidence

  predicate NoChange(states: seq<EngineState>, i: nat, n: nat)
    requires i <= n < |states|
  {
    forall k :: i <= k <= n ==> states[k].vitals.recoveryHealthy == states[n].vitals.recoveryHealthy
  }

  // The evidence was recorded by event i, and the recovery health has not
  // changed since.
  ghost predicate RecordedAt(cfg: EngineConfig, run: Run, n: nat, i: nat, evidence: M.Evidence)
    requires |run.outcomes| == |run.events| && |run.states| == |run.events| + 1 && n < |run.states|
  {
    && i < n && run.outcomes[i].Done?
    && EvidenceOf(cfg, run.states[i], run.events[i]) == Some(evidence)
    && NoChange(run.states, i, n)
  }

  lemma {:induction false} PendingIsCurrent(cfg: EngineConfig, run: Run, n: nat, evidence: M.Evidence)
    requires cfg.Valid() && IsRun(cfg, run) && n < |run.states| && evidence in run.states[n].vitals.pending
    ensures exists i: nat :: RecordedAt(cfg, run, n, i, evidence)
  {
    if n > 0 {
      VitalsStep(cfg, run, n - 1);
      var before, after := run.states[n - 1].vitals, run.states[n].vitals;
      if evidence in before.pending {
        PendingIsCurrent(cfg, run, n - 1, evidence);
        var i: nat :| RecordedAt(cfg, run, n - 1, i, evidence);
        assert RecordedAt(cfg, run, n, i, evidence);
      } else {
        assert RecordedAt(cfg, run, n, n - 1, evidence);
      }
    }
  }

  // Whatever a tick hands to the state machine was recorded after the latest
  // change of recovery health, the tick's own verdict on lateness included, and
  // carries the epoch that is passed along with it.
  lemma HandedEvidenceIsCurrent(cfg: EngineConfig, run: Run, n: nat, evidence: M.Evidence)
    requires cfg.Valid() && IsRun(cfg, run) && n < |run.events| && run.outcomes[n].Done?
    requires run.events[n].payload.OutputTick? && TickAllowed(cfg, run.states[n], run.events[n].payload.tick)
    requires evidence in Counted(cfg, run.states[n], run.events[n].payload.tick).vitals.pending
    ensures var c := Counted(cfg, run.states[n], run.events[n].payload.tick);
            && evidence.healthEpoch == c.vitals.epoch
            && c.vitals.recoveryHealthy == run.states[n].vitals.recoveryHealthy
            && exists i: nat :: RecordedAt(cfg, run, n, i, evidence)
  {
    StatesKeepInv(cfg, run, n);
    CountedVitals(cfg, run.states[n], run.events[n].payload.tick);
    PendingIsCurrent(cfg, run, n, evidence);
    assert evidence in run.states[n].vitals.pending;
  }
}
