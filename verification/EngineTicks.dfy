// Late output ticks over a whole history.
module EngineTicks {
  import opened Common
  import opened Messages
  import opened DecisionEngine
  import opened EngineInvariant
  import opened EngineHistory
  import opened EngineOutput
  import M = GatewayStateMachine

  function TimesAfter(times: seq<int>, payload: Payload): seq<int> {
    match payload
    case OutputTick(tick) => times + [tick.steadyNs]
    case Lifecycle(transition, success) =>
      if success && (transition.Activate? || transition.Deactivate? || transition.ErrorTransition?) then [] else times
    case HealthSnapshot(_) => times
    case Sample(_) => times
  }

  // The tick times of the current active period, as the history tells them.
  function PeriodTicks(events: seq<Event>, outcomes: seq<Outcome>, n: nat): seq<int>
    requires n <= |events| == |outcomes|
  {
    if n == 0 then []
    else
      var before := PeriodTicks(events, outcomes, n - 1);
      if outcomes[n - 1].Threw? then before else TimesAfter(before, events[n - 1].payload)
  }

  // The number of late intervals at the end of a period.
  function LateRun(times: seq<int>, thresholdNs: int): nat {
    var n := |times|;
    if n < 2 || times[n - 1] - times[n - 2] <= thresholdNs then 0
    else LateRun(times[..n - 1], thresholdNs) + 1
  }

  function Saturated(n: nat): uint64 {
    if n < MAX_UINT64 then n else MAX_UINT64
  }

  // The counter agrees with the tick times of the period.
  predicate TimingTells(cfg: EngineConfig, s: EngineState, times: seq<int>) {
    && s.timing.lastTick == (if times == [] then None else Some(times[|times| - 1]))
    && (s.active ==> s.timing.lateTicks == Saturated(LateRun(times, cfg.lateThresholdMs * NS_PER_MILLISECOND)))
  }

  lemma LifecycleTimes(cfg: EngineConfig, s: EngineState, transition: Transition, success: bool, times: seq<int>)
    requires TimingTells(cfg, s, times) && ApplyLifecycle(s, transition, success).Done?
    ensures TimingTells(cfg, ApplyLifecycle(s, transition, success).state,
                        TimesAfter(times, Lifecycle(transition, success)))
  {
  }

  lemma CountedTimes(cfg: EngineConfig, s: EngineState, e: TickEvent, times: seq<int>)
    requires TimingTells(cfg, s, times) && TickAllowed(cfg, s, e)
    ensures TimingTells(cfg, Counted(cfg, s, e), times + [e.steadyNs])
  {
    var longer := times + [e.steadyNs];
    assert longer[..|times|] == times;
    if times != [] {
      assert e.intervalNs == e.steadyNs - times[|times| - 1];
    }
  }

  lemma DecideKeepsTicks(cfg: EngineConfig, c: EngineState, sequence: uint64, e: TickEvent)
    requires Covers(cfg, c.bindings)
    ensures var after := Decide(cfg, c, sequence, e).state;
            && after.timing.lastTick == c.timing.lastTick && after.timing.lateTicks == c.timing.lateTicks
            && after.active == c.active
  {
  }

  lemma TickTimes(cfg: EngineConfig, s: EngineState, sequence: uint64, e: TickEvent, times: seq<int>)
    requires cfg.Valid() && Inv(cfg, s) && TimingTells(cfg, s, times) && ApplyTick(cfg, s, sequence, e).Done?
    ensures TimingTells(cfg, ApplyTick(cfg, s, sequence, e).state, times + [e.steadyNs])
  {
    CountedTimes(cfg, s, e, times);
    DecideKeepsTicks(cfg, Counted(cfg, s, e), sequence, e);
  }

  lemma OtherTimes(cfg: EngineConfig, s: EngineState, e: Event)
    requires cfg.Valid() && Inv(cfg, s) && (e.payload.HealthSnapshot? || e.payload.Sample?)
    ensures var after := ApplyPayload(cfg, s, e).state;
            && after.timing.lastTick == s.timing.lastTick && after.timing.lateTicks == s.timing.lateTicks
            && after.active == s.active
  {
    match e.payload
    case HealthSnapshot(snapshot) =>
    case Sample(sample) =>
  }

  lemma PayloadTimes(cfg: EngineConfig, s: EngineState, e: Event, times: seq<int>)
    requires cfg.Valid() && Inv(cfg, s) && TimingTells(cfg, s, times) && ApplyPayload(cfg, s, e).Done?
    ensures TimingTells(cfg, ApplyPayload(cfg, s, e).state, TimesAfter(times, e.payload))
  {
    match e.payload
    case Lifecycle(transition, success) => LifecycleTimes(cfg, s, transition, success, times);
    case HealthSnapshot(snapshot) => OtherTimes(cfg, s, e);
    case Sample(sample) => OtherTimes(cfg, s, e);
    case OutputTick(tick) => TickTimes(cfg, s, e.sequence, tick, times);
  }

  lemma TimesStep(cfg: EngineConfig, run: Run, i: nat, times: seq<int>)
    requires cfg.Valid() && IsRun(cfg, run) && i < |run.events| && run.outcomes[i].Done?
    requires TimingTells(cfg, run.states[i], times)
    ensures TimingTells(cfg, run.states[i + 1], TimesAfter(times, run.events[i].payload))
  {
    StatesKeepInv(cfg, run, i);
    assert IsStep(cfg, run, i);
    PayloadTimes(cfg, run.states[i], run.events[i], times);
  }

  // While the engine is active, its late count is the length of the run of late
  // intervals that ends the active period (up to the width of the counter).
  lemma {:induction false} LateCountIsTrailingRun(cfg: EngineConfig, run: Run, n: nat)
    requires cfg.Valid() && IsRun(cfg, run) && n < |run.states|
    ensures TimingTells(cfg, run.states[n], PeriodTicks(run.events, run.outcomes, n))
  {
    if n > 0 {
      LateCountIsTrailingRun(cfg, run, n - 1);
      if run.outcomes[n - 1].Threw? {
        RefusedChangesNothing(cfg, run, n - 1);
      } else {
        TimesStep(cfg, run, n - 1, PeriodTicks(run.events, run.outcomes, n - 1));
      }
    }
  }

  lemma LateTickIsSeen(cfg: EngineConfig, s: EngineState, sequence: uint64, e: TickEvent, times: seq<int>)
    requires cfg.Valid() && Inv(cfg, s) && TimingTells(cfg, s, times) && ApplyTick(cfg, s, sequence, e).Done?
    requires LateRun(times + [e.steadyNs], cfg.lateThresholdMs * NS_PER_MILLISECOND) >= cfg.lateTicksToSafeStop
    requires cfg.lateTicksToSafeStop <= MAX_UINT64
    ensures var r := ApplyTick(cfg, s, sequence, e).result;
            r.Some? && !r.value.state.Active? && IsZeroHold(r.value.canonical)
  {
    TickPublishes(cfg, s, sequence, e);
    CountedTimes(cfg, s, e, times);
    var d := DecisionOf(cfg, Counted(cfg, s, e), e);
    assert !M.AllHealthy(Counted(cfg, s, e).vitals.health);
    CanonicalWellFormed(cfg, d, s.timing.lastSteady);
  }

  // As long as the period ends in enough late intervals, every tick publishes a
  // zero HOLD.
  lemma LateRunStops(cfg: EngineConfig, run: Run, n: nat)
    requires cfg.Valid() && IsRun(cfg, run) && n < |run.events| && run.outcomes[n].Done?
    requires run.events[n].payload.OutputTick? && cfg.lateTicksToSafeStop <= MAX_UINT64
    requires LateRun(PeriodTicks(run.events, run.outcomes, n + 1), cfg.lateThresholdMs * NS_PER_MILLISECOND)
             >= cfg.lateTicksToSafeStop
    ensures run.outcomes[n].result.Some?
    ensures !run.outcomes[n].result.value.state.Active? && IsZeroHold(run.outcomes[n].result.value.canonical)
  {
    LateCountIsTrailingRun(cfg, run, n);
    StatesKeepInv(cfg, run, n);
    TickOutcome(cfg, run, n);
    LateTickIsSeen(cfg, run.states[n], run.events[n].sequence, run.events[n].payload.tick,
                   PeriodTicks(run.events, run.outcomes, n));
  }

  lemma TickOutcome(cfg: EngineConfig, run: Run, n: nat)
    requires cfg.Valid() && IsRun(cfg, run) && n < |run.events| && run.outcomes[n].Done?
    requires run.events[n].payload.OutputTick?
    ensures Covers(cfg, run.states[n].bindings)
    ensures var r := ApplyTick(cfg, run.states[n], run.events[n].sequence, run.events[n].payload.tick);
            r.Done? && r.result == run.outcomes[n].result
  {
    assert IsStep(cfg, run, n);
  }
}
