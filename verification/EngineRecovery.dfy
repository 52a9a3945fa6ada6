// What it takes for the gateway to become active: accepted samples of one
// publisher, uninterrupted, in one health epoch.
module EngineRecovery {
  import opened Common
  import opened Messages
  import opened DecisionEngine
  import opened EngineInvariant
  import opened EngineHistory
  import opened EngineOutput
  import opened EngineEpochs
  import M = GatewayStateMachine

  // What an event says about a candidate.
  datatype Word = Silent | Good | Bad

  function WordOf(cfg: EngineConfig, s: EngineState, e: Event, done: bool, key: M.CandidateKey): Word {
    var evidence := EvidenceOf(cfg, s, e);
    if !done || evidence.None? || evidence.value.candidate != key then Silent
    else if evidence.value.result.None? then Good else Bad
  }

  // The words of a history about `key`, and where the recovery health changed.
  ghost function Words(cfg: EngineConfig, run: Run, key: M.CandidateKey): (r: seq<Word>)
    requires |run.outcomes| == |run.events| && |run.states| == |run.events| + 1
    ensures |r| == |run.events|
    ensures forall i :: 0 <= i < |r| ==> r[i] == WordOf(cfg, run.states[i], run.events[i], run.outcomes[i].Done?, key)
  {
    seq(|run.events|, i requires 0 <= i < |run.events| =>
      WordOf(cfg, run.states[i], run.events[i], run.outcomes[i].Done?, key))
  }

  function Changes(states: seq<EngineState>): (r: seq<bool>)
    requires states != []
    ensures |r| == |states| - 1
    ensures forall i :: 0 <= i < |r| ==> r[i] == Flips(states[i].vitals, states[i + 1].vitals)
  {
    seq(|states| - 1, i requires 0 <= i < |states| - 1 => Flips(states[i].vitals, states[i + 1].vitals))
  }

  // The accepted samples of a candidate among the first n events, since its
  // last rejected sample and since the last change of recovery health.
  function GoodSamples(words: seq<Word>, changes: seq<bool>, n: nat): (r: seq<nat>)
    requires n <= |words| == |changes|
    ensures forall k :: 0 <= k < |r| ==> r[k] < n
  {
    if n == 0 || changes[n - 1] then []
    else
      match words[n - 1]
      case Silent => GoodSamples(words, changes, n - 1)
      case Good => GoodSamples(words, changes, n - 1) + [n - 1]
      case Bad => []
  }

  ghost predicate AreGood(words: seq<Word>, changes: seq<bool>, n: nat, samples: seq<nat>)
    requires n <= |words| == |changes|
  {
    && (forall k :: 0 <= k < |samples| ==> samples[k] < n && words[samples[k]].Good?)
    && (forall k :: 0 < k < |samples| ==> samples[k - 1] < samples[k])
    && (samples != [] ==> forall i :: samples[0] <= i < n ==> !words[i].Bad? && !changes[i])
  }

  // They are what they are called.
  lemma {:induction false} GoodSamplesAre(words: seq<Word>, changes: seq<bool>, n: nat)
    requires n <= |words| == |changes|
    ensures AreGood(words, changes, n, GoodSamples(words, changes, n))
  {
    if n > 0 && !changes[n - 1] && !words[n - 1].Bad? {
      GoodSamplesAre(words, changes, n - 1);
    }
  }

  // -------------------------------------------- the machine's count is less

  // The count that the machine would carry over for the candidate.
  function Carried(m: M.MachineState, epoch: uint64, key: M.CandidateKey): nat {
    if m.recoveryEpoch == Some(epoch) && m.candidate == Some(key) then m.validCount else 0
  }

  function WouldCount(s: EngineState, key: M.CandidateKey): nat {
    M.CountEvidence(Carried(s.machine, s.vitals.epoch, key), s.vitals.pending, key, s.vitals.epoch)
  }

  predicate RecoveryEpochPast(s: EngineState) {
    s.machine.recoveryEpoch.Some? ==> s.machine.recoveryEpoch.value <= s.vitals.epoch
  }

  // How an event moves the count, for an engine that is active afterwards.
  predicate CountMoves(cfg: EngineConfig, s: EngineState, t: EngineState, word: Word, key: M.CandidateKey) {
    && RecoveryEpochPast(t)
    && (t.active ==>
          if Flips(s.vitals, t.vitals) then WouldCount(t, key) == 0
          else if !s.active then WouldCount(t, key) == 0
          else
            match word
            case Silent => WouldCount(t, key) <= WouldCount(s, key)
            case Good => WouldCount(t, key) <= WouldCount(s, key) + 1
            case Bad => WouldCount(t, key) == 0)
  }

  lemma EmptyCount(m: M.MachineState, epoch: uint64, key: M.CandidateKey)
    ensures M.CountEvidence(Carried(m, epoch, key), [], key, epoch) == Carried(m, epoch, key)
  {
  }

  lemma AfterUpdate(s: EngineState, v: Vitals, key: M.CandidateKey)
    requires RecoveryEpochPast(s) && s.vitals.epoch < MAX_UINT64
    requires v.epoch == s.vitals.epoch && v.recoveryHealthy == s.vitals.recoveryHealthy && v.pending == s.vitals.pending
    ensures var t := s.(vitals := UpdateEpoch(v));
            && RecoveryEpochPast(t)
            && (Flips(s.vitals, t.vitals) ==> t.vitals.pending == [] && Carried(t.machine, t.vitals.epoch, key) == 0
                                              && WouldCount(t, key) == 0)
            && (!Flips(s.vitals, t.vitals) ==> WouldCount(t, key) == WouldCount(s, key))
  {
  }

  lemma LifecycleCounts(cfg: EngineConfig, s: EngineState, transition: Transition, success: bool, key: M.CandidateKey)
    requires RecoveryEpochPast(s) && s.vitals.epoch < MAX_UINT64
    ensures CountMoves(cfg, s, ApplyLifecycle(s, transition, success).state, Silent, key)
  {
    EmptyCount(M.INITIAL, ApplyLifecycle(s, transition, success).state.vitals.epoch, key);
  }

  lemma HealthCounts(cfg: EngineConfig, s: EngineState, e: HealthEvent, key: M.CandidateKey)
    requires cfg.Valid() && Covers(cfg, s.bindings) && RecoveryEpochPast(s) && s.vitals.epoch < MAX_UINT64
    ensures CountMoves(cfg, s, ApplyHealth(cfg, s, e).state, Silent, key)
  {
    if HealthEventAllowed(cfg, s, e) {
      AfterUpdate(s, s.vitals.(health := e.health, revision := e.revision), key);
    }
  }

  lemma SampleCounts(cfg: EngineConfig, s: EngineState, e: Event, key: M.CandidateKey)
    requires e.payload.Sample? && RecoveryEpochPast(s)
    ensures var r := ApplySample(cfg, s, e.payload.sample);
            r.Done? ==> CountMoves(cfg, s, r.state, WordOf(cfg, s, e, true, key), key)
  {
    var r := ApplySample(cfg, s, e.payload.sample);
    if r.Done? {
      var evidence := EvidenceOf(cfg, s, e).value;
      assert (s.vitals.pending + [evidence])[..|s.vitals.pending|] == s.vitals.pending;
      assert r.state.vitals.pending == s.vitals.pending + [evidence];
    }
  }

  // What the machine carries on after a tick is no more than it counted.
  lemma MachineCounts(m: M.MachineState, input: M.Input, samples: nat, key: M.CandidateKey)
    ensures var after := M.Evaluate(m, input, samples).0;
            && Carried(after, input.healthEpoch, key) <=
                 M.CountEvidence(Carried(m, input.healthEpoch, key), input.evidences, key, input.healthEpoch)
            && (after.recoveryEpoch == m.recoveryEpoch || after.recoveryEpoch == Some(input.healthEpoch))
  {
  }

  lemma DecideCounts(cfg: EngineConfig, c: EngineState, sequence: uint64, e: TickEvent, key: M.CandidateKey)
    requires Covers(cfg, c.bindings) && RecoveryEpochPast(c) && Decide(cfg, c, sequence, e).Done?
    ensures var t := Decide(cfg, c, sequence, e).state;
            && RecoveryEpochPast(t) && WouldCount(t, key) <= WouldCount(c, key)
            && t.vitals.recoveryHealthy == c.vitals.recoveryHealthy && t.active == c.active
  {
    var arbitration := ArbitrationOf(cfg, c, e).value.1;
    MachineCounts(c.machine, MachineInput(c, arbitration), cfg.recoveryValidSamples, key);
    EmptyCount(Decide(cfg, c, sequence, e).state.machine, c.vitals.epoch, key);
  }

  lemma CountedCounts(cfg: EngineConfig, s: EngineState, e: TickEvent, key: M.CandidateKey)
    requires CountLate(s.timing, cfg.lateThresholdMs, e.intervalNs).Some?
    requires RecoveryEpochPast(s) && s.vitals.epoch < MAX_UINT64
    ensures var c := Counted(cfg, s, e);
            && RecoveryEpochPast(c) && c.machine == s.machine && c.active == s.active
            && (Flips(s.vitals, c.vitals) ==> WouldCount(c, key) == 0)
            && (!Flips(s.vitals, c.vitals) ==> WouldCount(c, key) == WouldCount(s, key))
  {
    var late := CountLate(s.timing, cfg.lateThresholdMs, e.intervalNs).value;
    AfterUpdate(s, s.vitals.(health := s.vitals.health.(outputTickHealthy := late < cfg.lateTicksToSafeStop)), key);
  }

  lemma TickCounts(cfg: EngineConfig, s: EngineState, sequence: uint64, e: TickEvent, key: M.CandidateKey)
    requires cfg.Valid() && Inv(cfg, s) && RecoveryEpochPast(s) && s.vitals.epoch < MAX_UINT64
    requires ApplyTick(cfg, s, sequence, e).Done?
    ensures CountMoves(cfg, s, ApplyTick(cfg, s, sequence, e).state, Silent, key)
  {
    CountedCounts(cfg, s, e, key);
    DecideCounts(cfg, Counted(cfg, s, e), sequence, e, key);
  }

  lemma PayloadCounts(cfg: EngineConfig, s: EngineState, e: Event, key: M.CandidateKey)
    requires cfg.Valid() && Inv(cfg, s) && RecoveryEpochPast(s) && s.vitals.epoch < MAX_UINT64
    requires ApplyPayload(cfg, s, e).Done?
    ensures CountMoves(cfg, s, ApplyPayload(cfg, s, e).state, WordOf(cfg, s, e, true, key), key)
  {
    match e.payload
    case Lifecycle(transition, success) => LifecycleCounts(cfg, s, transition, success, key);
    case HealthSnapshot(snapshot) => HealthCounts(cfg, s, snapshot, key);
    case Sample(sample) => SampleCounts(cfg, s, e, key);
    case OutputTick(tick) => TickCounts(cfg, s, e.sequence, tick, key);
  }

  lemma CountStep(cfg: EngineConfig, run: Run, i: nat, key: M.CandidateKey)
    requires cfg.Valid() && IsRun(cfg, run) && i < |run.events| && run.outcomes[i].Done?
    requires RecoveryEpochPast(run.states[i]) && run.states[i].vitals.epoch < MAX_UINT64
    ensures CountMoves(cfg, run.states[i], run.states[i + 1],
                       WordOf(cfg, run.states[i], run.events[i], true, key), key)
  {
    StatesKeepInv(cfg, run, i);
    assert IsStep(cfg, run, i);
    PayloadCounts(cfg, run.states[i], run.events[i], key);
  }

  // -------------------------------------------------- over the history

  lemma {:induction false} EpochBelow(cfg: EngineConfig, run: Run, n: nat)
    requires cfg.Valid() && IsRun(cfg, run) && n < |run.states| && HealthChanges(run.states, n) < MAX_UINT64
    ensures run.states[n].vitals.epoch < MAX_UINT64
    ensures n > 0 ==> HealthChanges(run.states, n - 1) < MAX_UINT64
  {
    EpochCountsChanges(cfg, run, n);
  }

  // The machine never counts more than the good samples of the history.
  lemma {:induction false} CountIsEarned(cfg: EngineConfig, run: Run, n: nat, key: M.CandidateKey)
    requires cfg.Valid() && IsRun(cfg, run) && n < |run.states| && HealthChanges(run.states, n) < MAX_UINT64
    ensures RecoveryEpochPast(run.states[n])
    ensures run.states[n].active ==>
              WouldCount(run.states[n], key) <= |GoodSamples(Words(cfg, run, key), Changes(run.states), n)|
  {
    if n > 0 {
      EpochBelow(cfg, run, n);
      EpochBelow(cfg, run, n - 1);
      CountIsEarned(cfg, run, n - 1, key);
      if run.outcomes[n - 1].Threw? {
        RefusedChangesNothing(cfg, run, n - 1);
      } else {
        CountStep(cfg, run, n - 1, key);
      }
    }
  }

  // A gateway that becomes active at a tick has seen at least the required
  // number of samples of the selected publisher, each accepted, with no
  // rejected one and no change of health since the first of them.
  lemma ActivationIsEarned(cfg: EngineConfig, run: Run, n: nat) returns (key: M.CandidateKey, samples: seq<nat>)
    requires cfg.Valid() && IsRun(cfg, run) && n < |run.events| && run.outcomes[n].Done?
    requires run.events[n].payload.OutputTick? && HealthChanges(run.states, n) < MAX_UINT64
    requires run.outcomes[n].result.Some? && run.outcomes[n].result.value.state.Active?
    requires !run.states[n].machine.state.Active?
    ensures |samples| >= cfg.recoveryValidSamples
    ensures AreGood(Words(cfg, run, key), Changes(run.states), n, samples)
    ensures run.outcomes[n].result.value.canonical.sourceId == key.sourceId
    ensures key.sourceId in run.states[n].bindings.slots
    ensures var latest := run.states[n].bindings.slots[key.sourceId].latest;
            latest.Some? && M.CandidateOf(latest.value) == key
  {
    var s, e := run.states[n], run.events[n].payload.tick;
    StatesKeepInv(cfg, run, n);
    assert IsStep(cfg, run, n);
    TickPublishes(cfg, s, run.events[n].sequence, e);
    key := M.CandidateOf(DecisionOf(cfg, Counted(cfg, s, e), e).selected.value);
    EpochBelow(cfg, run, n);
    CountIsEarned(cfg, run, n, key);
    CountedCounts(cfg, s, e, key);
    ActivationCount(cfg, Counted(cfg, s, e), e);
    samples := GoodSamples(Words(cfg, run, key), Changes(run.states), n);
    GoodSamplesAre(Words(cfg, run, key), Changes(run.states), n);
  }

  lemma ActivationCount(cfg: EngineConfig, c: EngineState, e: TickEvent)
    requires Covers(cfg, c.bindings) && ArbitrationOf(cfg, c, e).Some?
    requires !c.machine.state.Active? && DecisionOf(cfg, c, e).state.Active?
    ensures DecisionOf(cfg, c, e).selected.Some?
    ensures WouldCount(c, M.CandidateOf(DecisionOf(cfg, c, e).selected.value)) >= cfg.recoveryValidSamples
  {
    var input := MachineInput(c, ArbitrationOf(cfg, c, e).value.1);
    M.ActiveIsHealthy(c.machine, input, cfg.recoveryValidSamples);
    M.ActivationNeedsEvidence(c.machine, input, cfg.recoveryValidSamples);
  }
}
