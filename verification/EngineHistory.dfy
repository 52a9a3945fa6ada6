// The decision engine over whole event histories.
module EngineHistory {
  import opened Common
  import opened Messages
  import opened CommandValidator
  import opened SourceRuntime
  import opened DecisionEngine
  import opened EngineInvariant

  // Some events, accepted or refused, with the state before each of them, what
  // each one led to, and the state after the last one.
  datatype Run = Run(events: seq<Event>, states: seq<EngineState>, outcomes: seq<Outcome>)

  ghost predicate IsStep(cfg: EngineConfig, run: Run, i: nat)
    requires cfg.Valid() && i < |run.events| == |run.outcomes| && |run.states| == |run.events| + 1
  {
    && Covers(cfg, run.states[i].bindings)
    && run.outcomes[i] == ApplyEvent(cfg, run.states[i], run.events[i])
    && run.states[i + 1] == run.outcomes[i].state
  }

  ghost predicate IsRun(cfg: EngineConfig, run: Run)
    requires cfg.Valid()
  {
    && |run.outcomes| == |run.events| && |run.states| == |run.events| + 1
    && run.states[0] == Initial(cfg)
    && forall i: nat :: i < |run.events| ==> IsStep(cfg, run, i)
  }

  lemma StartsInInv(cfg: EngineConfig, run: Run)
    requires cfg.Valid() && IsRun(cfg, run)
    ensures Inv(cfg, run.states[0])
  {
    InitialInv(cfg);
  }

  lemma StepKeepsInv(cfg: EngineConfig, run: Run, i: nat)
    requires cfg.Valid() && IsRun(cfg, run) && i < |run.events| && Inv(cfg, run.states[i])
    ensures Inv(cfg, run.states[i + 1])
  {
    assert IsStep(cfg, run, i);
    AllOrNothing(cfg, run.states[i], run.events[i]);
  }

  lemma {:induction false} StatesKeepInv(cfg: EngineConfig, run: Run, i: nat)
    requires cfg.Valid() && IsRun(cfg, run) && i < |run.states|
    ensures Inv(cfg, run.states[i])
  {
    if i == 0 {
      StartsInInv(cfg, run);
    } else {
      var n := i - 1;
      StatesKeepInv(cfg, run, n);
      StepKeepsInv(cfg, run, n);
    }
  }

  // Every list of events is the history of a run.
  lemma {:induction false} EveryHistoryRuns(cfg: EngineConfig, events: seq<Event>) returns (run: Run)
    requires cfg.Valid()
    ensures IsRun(cfg, run) && run.events == events
    decreases |events|
  {
    if events == [] {
      run := Run([], [Initial(cfg)], []);
    } else {
      var n := |events| - 1;
      var before := EveryHistoryRuns(cfg, events[..n]);
      StatesKeepInv(cfg, before, n);
      var outcome := ApplyEvent(cfg, before.states[n], events[n]);
      run := Run(events, before.states + [outcome.state], before.outcomes + [outcome]);
      forall i: nat | i < |events|
        ensures IsStep(cfg, run, i)
      {
        if i < n {
          assert IsStep(cfg, before, i);
        }
      }
    }
  }

  // ------------------------------------- sequence and steady offset

  predicate SteadyGrows(before: Timing, after: Timing) {
    before.lastSteady.Some? ==> after.lastSteady.Some? && before.lastSteady.value <= after.lastSteady.value
  }

  lemma PayloadGrows(cfg: EngineConfig, s: EngineState, e: Event)
    requires cfg.Valid() && Covers(cfg, s.bindings)
    ensures SteadyGrows(s.timing, ApplyPayload(cfg, s, e).state.timing)
    ensures ApplyPayload(cfg, s, e).state.lastSequence == s.lastSequence
  {
    match e.payload
    case Lifecycle(transition, success) =>
    case HealthSnapshot(snapshot) =>
    case Sample(sample) =>
    case OutputTick(tick) =>
  }

  lemma EventCounts(cfg: EngineConfig, s: EngineState, e: Event)
    requires cfg.Valid() && Covers(cfg, s.bindings)
    ensures var r := ApplyEvent(cfg, s, e);
            && r.state.lastSequence == s.lastSequence + (if r.Done? then 1 else 0)
            && SteadyGrows(s.timing, r.state.timing)
  {
    PayloadGrows(cfg, s, e);
  }

  function Successes(outcomes: seq<Outcome>): nat {
    if outcomes == [] then 0
    else Successes(outcomes[..|outcomes| - 1]) + (if outcomes[|outcomes| - 1].Done? then 1 else 0)
  }

  // n accepted events leave the sequence at n, whatever was refused between.
  lemma {:induction false} SequenceCountsSuccesses(cfg: EngineConfig, run: Run, n: nat)
    requires cfg.Valid() && IsRun(cfg, run) && n <= |run.events|
    ensures run.states[n].lastSequence == Successes(run.outcomes[..n])
  {
    if n > 0 {
      SequenceCountsSuccesses(cfg, run, n - 1);
      StatesKeepInv(cfg, run, n - 1);
      assert IsStep(cfg, run, n - 1);
      EventCounts(cfg, run.states[n - 1], run.events[n - 1]);
      assert run.outcomes[..n][..n - 1] == run.outcomes[..n - 1];
    }
  }

  // A refused event changes nothing, and the steady offset never goes back.
  lemma {:induction false} SteadyOffsetMonotone(cfg: EngineConfig, run: Run, i: nat, j: nat)
    requires cfg.Valid() && IsRun(cfg, run) && i <= j <= |run.events|
    ensures SteadyGrows(run.states[i].timing, run.states[j].timing)
    decreases j - i
  {
    if i < j {
      SteadyOffsetMonotone(cfg, run, i, j - 1);
      StatesKeepInv(cfg, run, j - 1);
      assert IsStep(cfg, run, j - 1);
      EventCounts(cfg, run.states[j - 1], run.events[j - 1]);
    }
  }

  lemma RefusedChangesNothing(cfg: EngineConfig, run: Run, i: nat)
    requires cfg.Valid() && IsRun(cfg, run) && i < |run.events| && run.outcomes[i].Threw?
    ensures run.states[i + 1] == run.states[i]
    ensures Refused(cfg, run.states[i], run.events[i]) || Unrepresentable(cfg, run.states[i], run.events[i])
  {
    StatesKeepInv(cfg, run, i);
    assert IsStep(cfg, run, i);
    AllOrNothing(cfg, run.states[i], run.events[i]);
    OnlyRefusalsThrow(cfg, run.states[i], run.events[i]);
  }

  // ------------------------------------------------------- what slots do

  // What an event may do to a slot: keep it, drop its snapshot, bind it to
  // another generation, or commit a judged sample.
  predicate SlotMoves(before: Slot, after: Slot, verdict: Option<Result<SourceSnapshot, RejectReason>>) {
    || after == before
    || after == Invalidate(before)
    || (after.generation != before.generation && after.latest.None? && after.lastSequence.None?)
    || (verdict.Some? && Commit(before, verdict.value) == Some(after))
  }

  function VerdictFor(cfg: EngineConfig, s: EngineState, e: Event, x: string)
    : Option<Result<SourceSnapshot, RejectReason>>
  {
    if e.payload.Sample? && e.payload.sample.expectedSourceId == x then SampleVerdict(cfg, s, e.payload.sample) else None
  }

  lemma HealthMoves(cfg: EngineConfig, s: EngineState, e: HealthEvent, x: string)
    requires cfg.Valid() && Inv(cfg, s) && x in cfg.sources
    ensures Covers(cfg, ApplyHealth(cfg, s, e).state.bindings)
    ensures SlotMoves(s.bindings.slots[x], ApplyHealth(cfg, s, e).state.bindings.slots[x], None)
  {
    if HealthEventAllowed(cfg, s, e) {
      ReportedWellFormed(cfg, e.endpoints);
      var next := EndpointMap(e.endpoints);
      BindAllKeeps(cfg, cfg.sources, s.bindings, next, s.timing.lastSteady);
      assert SourceInv(cfg, x, s.bindings.slots[x], s.bindings.endpoints[x], s.timing.lastSteady);
      if next[x].state.Usable? {
        ConfirmKeeps(x, s.bindings.slots[x], next[x].generation.value);
      }
    }
  }

  lemma SampleMoves(cfg: EngineConfig, s: EngineState, e: SampleEvent, x: string)
    requires cfg.Valid() && Inv(cfg, s) && x in cfg.sources
    ensures Covers(cfg, ApplySample(cfg, s, e).state.bindings)
    ensures SlotMoves(s.bindings.slots[x], ApplySample(cfg, s, e).state.bindings.slots[x],
                      if e.expectedSourceId == x then SampleVerdict(cfg, s, e) else None)
  {
    SampleKeeps(cfg, s, e);
  }

  lemma TickKeepsBindings(cfg: EngineConfig, s: EngineState, sequence: uint64, e: TickEvent)
    requires cfg.Valid() && Inv(cfg, s)
    ensures ApplyTick(cfg, s, sequence, e).state.bindings == s.bindings
  {
  }

  lemma LifecycleKeepsBindings(s: EngineState, transition: Transition, success: bool)
    ensures ApplyLifecycle(s, transition, success).state.bindings == s.bindings
  {
  }

  lemma PayloadMoves(cfg: EngineConfig, s: EngineState, e: Event, x: string)
    requires cfg.Valid() && Inv(cfg, s) && x in cfg.sources
    ensures Covers(cfg, ApplyPayload(cfg, s, e).state.bindings)
    ensures SlotMoves(s.bindings.slots[x], ApplyPayload(cfg, s, e).state.bindings.slots[x], VerdictFor(cfg, s, e, x))
  {
    match e.payload
    case Lifecycle(transition, success) => LifecycleKeepsBindings(s, transition, success);
    case HealthSnapshot(snapshot) => HealthMoves(cfg, s, snapshot, x);
    case Sample(sample) => SampleMoves(cfg, s, sample, x);
    case OutputTick(tick) => TickKeepsBindings(cfg, s, e.sequence, tick);
  }

  lemma EventMoves(cfg: EngineConfig, s: EngineState, e: Event, x: string)
    requires cfg.Valid() && Inv(cfg, s) && x in cfg.sources
    ensures Covers(cfg, ApplyEvent(cfg, s, e).state.bindings)
    ensures SlotMoves(s.bindings.slots[x], ApplyEvent(cfg, s, e).state.bindings.slots[x], VerdictFor(cfg, s, e, x))
  {
    PayloadMoves(cfg, s, e, x);
  }

  lemma SampleCommitted(cfg: EngineConfig, s: EngineState, e: SampleEvent)
    requires cfg.Valid() && Inv(cfg, s)
    requires var verdict := SampleVerdict(cfg, s, e); verdict.Some? && verdict.value.Ok?
    ensures Covers(cfg, ApplySample(cfg, s, e).state.bindings) && e.expectedSourceId in cfg.sources
    ensures var x, snapshot := e.expectedSourceId, SampleVerdict(cfg, s, e).value.value;
            var before, after := s.bindings.slots[x], ApplySample(cfg, s, e).state.bindings.slots[x];
            && after.latest == Some(snapshot) && after.lastSequence == Some(snapshot.sequence)
            && after.generation == before.generation == Some(e.generation)
            && snapshot.sequence == e.command.sourceSequence
            && (before.lastSequence.Some? ==> before.lastSequence.value < snapshot.sequence)
  {
    SampleKeeps(cfg, s, e);
    AcceptedSnapshot(cfg, s, e);
  }

  ghost function SlotAt(cfg: EngineConfig, run: Run, i: nat, x: string): Slot
    requires cfg.Valid() && IsRun(cfg, run) && i < |run.states| && x in cfg.sources
  {
    StatesKeepInv(cfg, run, i);
    run.states[i].bindings.slots[x]
  }

  // Event i is an accepted sample of source x.
  ghost predicate AcceptedAt(cfg: EngineConfig, run: Run, i: nat, x: string)
    requires i < |run.events| == |run.outcomes| && |run.states| == |run.events| + 1
  {
    && run.events[i].payload.Sample? && run.events[i].payload.sample.expectedSourceId == x
    && run.outcomes[i].Done?
    && SampleVerdict(cfg, run.states[i], run.events[i].payload.sample).Some?
    && SampleVerdict(cfg, run.states[i], run.events[i].payload.sample).value.Ok?
  }

  // The snapshot that the sample of event i became.
  ghost function SnapshotOf(cfg: EngineConfig, run: Run, i: nat, x: string): SourceSnapshot
    requires i < |run.events| == |run.outcomes| && |run.states| == |run.events| + 1 && AcceptedAt(cfg, run, i, x)
  {
    SampleVerdict(cfg, run.states[i], run.events[i].payload.sample).value.value
  }

  lemma SampleStep(cfg: EngineConfig, run: Run, i: nat)
    requires cfg.Valid() && IsRun(cfg, run) && i < |run.events|
    requires run.events[i].payload.Sample? && run.outcomes[i].Done?
    ensures run.states[i + 1].bindings == ApplySample(cfg, run.states[i], run.events[i].payload.sample).state.bindings
  {
    assert IsStep(cfg, run, i);
  }

  lemma AcceptedCommits(cfg: EngineConfig, run: Run, i: nat, x: string)
    requires cfg.Valid() && IsRun(cfg, run) && i < |run.events| && AcceptedAt(cfg, run, i, x)
    ensures x in cfg.sources
    ensures var e, snapshot := run.events[i].payload.sample, SnapshotOf(cfg, run, i, x);
            var before, after := SlotAt(cfg, run, i, x), SlotAt(cfg, run, i + 1, x);
            && after.latest == Some(snapshot) && after.lastSequence == Some(e.command.sourceSequence)
            && after.generation == before.generation == Some(e.generation)
            && snapshot.sequence == e.command.sourceSequence
            && (before.lastSequence.Some? ==> before.lastSequence.value < snapshot.sequence)
  {
    StatesKeepInv(cfg, run, i);
    SampleStep(cfg, run, i);
    SampleCommitted(cfg, run.states[i], run.events[i].payload.sample);
  }

  lemma MovesAt(cfg: EngineConfig, run: Run, i: nat, x: string)
    requires cfg.Valid() && IsRun(cfg, run) && i < |run.events| && x in cfg.sources
    ensures SlotMoves(SlotAt(cfg, run, i, x), SlotAt(cfg, run, i + 1, x),
                      VerdictFor(cfg, run.states[i], run.events[i], x))
  {
    StatesKeepInv(cfg, run, i);
    assert IsStep(cfg, run, i);
    EventMoves(cfg, run.states[i], run.events[i], x);
  }

  predicate SequenceGrows(before: Slot, after: Slot) {
    after.generation == before.generation && before.lastSequence.Some? ==>
      after.lastSequence.Some? && before.lastSequence.value <= after.lastSequence.value
  }

  lemma MovesGrow(before: Slot, after: Slot, verdict: Option<Result<SourceSnapshot, RejectReason>>)
    requires SlotMoves(before, after, verdict)
    ensures SequenceGrows(before, after)
  {
  }

  // Source x stays bound to one generation from state i to state j, although
  // its endpoint may be lost and come back in between.
  ghost predicate SameGeneration(cfg: EngineConfig, run: Run, i: nat, j: nat, x: string)
    requires cfg.Valid() && IsRun(cfg, run) && i <= j < |run.states| && x in cfg.sources
  {
    forall k: nat :: i <= k <= j ==> SlotAt(cfg, run, k, x).generation == SlotAt(cfg, run, i, x).generation
  }

  lemma {:induction false} BaselineKept(cfg: EngineConfig, run: Run, i: nat, j: nat, x: string)
    requires cfg.Valid() && IsRun(cfg, run) && i <= j < |run.states| && x in cfg.sources
    requires SameGeneration(cfg, run, i, j, x)
    ensures SequenceGrows(SlotAt(cfg, run, i, x), SlotAt(cfg, run, j, x))
    decreases j - i
  {
    if i < j {
      BaselineKept(cfg, run, i, j - 1, x);
      MovesAt(cfg, run, j - 1, x);
      MovesGrow(SlotAt(cfg, run, j - 1, x), SlotAt(cfg, run, j, x),
                VerdictFor(cfg, run.states[j - 1], run.events[j - 1], x));
    }
  }

  // While a source stays bound to one generation, each accepted sample carries
  // a greater sequence than every accepted one before it.
  lemma AcceptedSequencesIncrease(cfg: EngineConfig, run: Run, i: nat, j: nat, x: string)
    requires cfg.Valid() && IsRun(cfg, run) && i < j < |run.events| && x in cfg.sources
    requires AcceptedAt(cfg, run, i, x) && AcceptedAt(cfg, run, j, x) && SameGeneration(cfg, run, i + 1, j, x)
    ensures run.events[i].payload.sample.command.sourceSequence < run.events[j].payload.sample.command.sourceSequence
    ensures run.events[i].payload.sample.generation == run.events[j].payload.sample.generation
  {
    AcceptedCommits(cfg, run, i, x);
    BaselineKept(cfg, run, i + 1, j, x);
    AcceptedCommits(cfg, run, j, x);
  }

  // ------------------------------------------------ where snapshots come from

  // The source's slot holds the snapshot in every state from i to n.
  ghost predicate HeldFrom(cfg: EngineConfig, run: Run, i: nat, n: nat, x: string, snapshot: SourceSnapshot)
    requires cfg.Valid() && IsRun(cfg, run) && n < |run.states| && x in cfg.sources
  {
    forall k: nat :: i <= k <= n ==> SlotAt(cfg, run, k, x).latest == Some(snapshot)
  }

  // Event i accepted the snapshot, and the slot has held it ever since.
  ghost predicate CameFrom(cfg: EngineConfig, run: Run, i: nat, n: nat, x: string, snapshot: SourceSnapshot)
    requires cfg.Valid() && IsRun(cfg, run) && n < |run.states| && x in cfg.sources
  {
    && i < n && AcceptedAt(cfg, run, i, x) && SnapshotOf(cfg, run, i, x) == snapshot
    && HeldFrom(cfg, run, i + 1, n, x, snapshot)
  }

  lemma {:induction false} SnapshotsCameFrom(cfg: EngineConfig, run: Run, n: nat, x: string)
    requires cfg.Valid() && IsRun(cfg, run) && n < |run.states| && x in cfg.sources
    ensures var latest := SlotAt(cfg, run, n, x).latest;
            latest.Some? ==> exists i: nat :: CameFrom(cfg, run, i, n, x, latest.value)
  {
    if n == 0 {
      NothingHeldAtFirst(cfg, run, x);
    } else {
      SnapshotsCameFrom(cfg, run, n - 1, x);
      var before, after := SlotAt(cfg, run, n - 1, x), SlotAt(cfg, run, n, x);
      if after.latest.Some? {
        if after.latest == before.latest {
          var i: nat :| CameFrom(cfg, run, i, n - 1, x, before.latest.value);
          StillHeld(cfg, run, i, n - 1, x, before.latest.value);
        } else {
          NewSnapshotAccepted(cfg, run, n - 1, x);
          assert CameFrom(cfg, run, n - 1, n, x, after.latest.value);
        }
      }
    }
  }

  lemma NothingHeldAtFirst(cfg: EngineConfig, run: Run, x: string)
    requires cfg.Valid() && IsRun(cfg, run) && x in cfg.sources
    ensures SlotAt(cfg, run, 0, x).latest.None?
  {
  }

  lemma StillHeld(cfg: EngineConfig, run: Run, i: nat, n: nat, x: string, snapshot: SourceSnapshot)
    requires cfg.Valid() && IsRun(cfg, run) && n < |run.events| && x in cfg.sources
    requires CameFrom(cfg, run, i, n, x, snapshot) && SlotAt(cfg, run, n + 1, x).latest == Some(snapshot)
    ensures CameFrom(cfg, run, i, n + 1, x, snapshot)
  {
    forall k: nat | i + 1 <= k <= n + 1
      ensures SlotAt(cfg, run, k, x).latest == Some(snapshot)
    {
      if k <= n {
        assert HeldFrom(cfg, run, i + 1, n, x, snapshot);
      }
    }
  }

  lemma NewSnapshotAccepted(cfg: EngineConfig, run: Run, i: nat, x: string)
    requires cfg.Valid() && IsRun(cfg, run) && i < |run.events| && x in cfg.sources
    requires var before, after := SlotAt(cfg, run, i, x), SlotAt(cfg, run, i + 1, x);
             after.latest.Some? && after.latest != before.latest
    ensures AcceptedAt(cfg, run, i, x) && Some(SnapshotOf(cfg, run, i, x)) == SlotAt(cfg, run, i + 1, x).latest
  {
    MovesAt(cfg, run, i, x);
    if run.outcomes[i].Threw? {
      RefusedChangesNothing(cfg, run, i);
    }
  }
}
