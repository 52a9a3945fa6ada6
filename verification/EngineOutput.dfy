// What the gateway publishes: the canonical command of every tick.
module EngineOutput {
  import opened Common
  import opened Messages
  import opened CommandValidator
  import opened DecisionEngine
  import opened EngineInvariant
  import opened EngineHistory
  import G = CanonicalInputGuard
  import M = GatewayStateMachine

  function DecisionOf(cfg: EngineConfig, c: EngineState, e: TickEvent): M.Decision
    requires Covers(cfg, c.bindings) && ArbitrationOf(cfg, c, e).Some?
  {
    M.Evaluate(c.machine, MachineInput(c, ArbitrationOf(cfg, c, e).value.1), cfg.recoveryValidSamples).1
  }

  lemma CountedIsDecidable(cfg: EngineConfig, s: EngineState, e: TickEvent)
    requires cfg.Valid() && Inv(cfg, s) && TickAllowed(cfg, s, e)
    ensures Decidable(cfg, Counted(cfg, s, e), e) && Counted(cfg, s, e).bindings == s.bindings
  {
  }

  // The command of a tick is the one of its decision, and the decision selects
  // a snapshot that the source's slot holds.
  lemma TickPublishes(cfg: EngineConfig, s: EngineState, sequence: uint64, e: TickEvent)
    requires cfg.Valid() && Inv(cfg, s) && ApplyTick(cfg, s, sequence, e).Done?
    ensures TickAllowed(cfg, s, e)
    ensures var c := Counted(cfg, s, e);
            && Covers(cfg, c.bindings) && ArbitrationOf(cfg, c, e).Some?
            && var d, r := DecisionOf(cfg, c, e), ApplyTick(cfg, s, sequence, e).result;
            && r.Some? && CanonicalCommand(d) == Some(r.value.canonical) && r.value.state == d.state
            && r.value.sequence == sequence
            && (d.state.Active? ==> d.selected.Some? && M.AllHealthy(c.vitals.health))
            && (d.selected.Some? ==>
                  && d.selected.value.sourceId in cfg.sources
                  && s.bindings.slots[d.selected.value.sourceId].latest == d.selected
                  && SnapshotInv(cfg, d.selected.value, s.timing.lastSteady))
  {
    TickKeeps(cfg, s, sequence, e);
    CountedIsDecidable(cfg, s, e);
    var c := Counted(cfg, s, e);
    SelectionIsHeld(cfg, c, e);
    M.ActiveIsHealthy(c.machine, MachineInput(c, ArbitrationOf(cfg, c, e).value.1), cfg.recoveryValidSamples);
  }

  predicate IsZeroHold(command: ControlCommand) {
    command.mode == MODE_HOLD && command.linearVelocity == Finite(0.0) && command.angularVelocity == Finite(0.0)
  }

  lemma CanonicalWellFormed(cfg: EngineConfig, d: M.Decision, lastSteady: Option<int64>)
    requires d.selected.Some? ==> SnapshotInv(cfg, d.selected.value, lastSteady) && d.selected.value.sourceId != ""
    requires CanonicalCommand(d).Some?
    ensures G.WellFormed(CanonicalCommand(d).value, cfg.rules)
    ensures !d.state.Active? ==> IsZeroHold(CanonicalCommand(d).value)
  {
  }

  // An active gateway publishes the sample as it came, field by field.
  lemma CanonicalRepeatsSample(cfg: EngineConfig, command: ControlCommand, ctx: Context, d: M.Decision)
    requires Validate(command, ctx, cfg.rules).Ok? && d.state.Active?
    requires d.selected == Some(Validate(command, ctx, cfg.rules).value)
    ensures CanonicalCommand(d) == Some(command)
  {
    CommandValidator.AcceptsExactly(command, ctx, cfg.rules);
  }

  // The verdict of an accepted sample is the validator's.
  lemma AcceptedWasValidated(cfg: EngineConfig, s: EngineState, e: SampleEvent)
    requires SampleVerdict(cfg, s, e).Some? && SampleVerdict(cfg, s, e).value.Ok?
    ensures e.expectedSourceId in cfg.policy && e.expectedSourceId in s.bindings.slots
    ensures SampleVerdict(cfg, s, e).value ==
            Validate(e.command, SampleContext(cfg, s, s.bindings.slots[e.expectedSourceId], e), cfg.rules)
  {
  }

  // Event i is an accepted sample of x with this command, from the generation
  // that x is bound to at state n.
  ghost predicate IsAcceptedSample(cfg: EngineConfig, run: Run, n: nat, i: nat, x: string, command: ControlCommand)
    requires cfg.Valid() && IsRun(cfg, run) && n < |run.states|
  {
    && i < n && x in cfg.sources && AcceptedAt(cfg, run, i, x)
    && run.events[i].payload.sample.command == command
    && SlotAt(cfg, run, n, x).generation == Some(run.events[i].payload.sample.generation)
  }

  // Every canonical command is a zero HOLD, or the unchanged command of a
  // sample accepted earlier from the generation its source is bound to; and
  // the adapter's guard finds its content in order.
  lemma CanonicalIsHoldOrAccepted(cfg: EngineConfig, run: Run, n: nat)
    requires cfg.Valid() && IsRun(cfg, run) && n < |run.events|
    requires run.outcomes[n].Done? && run.outcomes[n].result.Some?
    ensures var r := run.outcomes[n].result.value;
            && G.WellFormed(r.canonical, cfg.rules)
            && (IsZeroHold(r.canonical) ||
                (r.state.Active? && exists i: nat, x :: IsAcceptedSample(cfg, run, n, i, x, r.canonical)))
  {
    StatesKeepInv(cfg, run, n);
    var s := run.states[n];
    assert run.outcomes[n] == ApplyEvent(cfg, s, run.events[n]) by {
      assert IsStep(cfg, run, n);
    }
    assert run.events[n].payload.OutputTick?;
    var e := run.events[n].payload.tick;
    TickPublishes(cfg, s, run.events[n].sequence, e);
    var d := DecisionOf(cfg, Counted(cfg, s, e), e);
    CanonicalWellFormed(cfg, d, s.timing.lastSteady);
    if d.state.Active? {
      ActiveRepeats(cfg, run, n, d);
    }
  }

  lemma SampleRepeated(cfg: EngineConfig, run: Run, i: nat, x: string, d: M.Decision)
    requires cfg.Valid() && IsRun(cfg, run) && i < |run.events| && AcceptedAt(cfg, run, i, x)
    requires d.state.Active? && d.selected == Some(SnapshotOf(cfg, run, i, x))
    ensures CanonicalCommand(d) == Some(run.events[i].payload.sample.command)
    ensures SnapshotOf(cfg, run, i, x).generation == run.events[i].payload.sample.generation
  {
    var s, e := run.states[i], run.events[i].payload.sample;
    StatesKeepInv(cfg, run, i);
    AcceptedSnapshot(cfg, s, e);
    AcceptedWasValidated(cfg, s, e);
    CanonicalRepeatsSample(cfg, e.command, SampleContext(cfg, s, s.bindings.slots[x], e), d);
  }

  lemma HeldIsBound(cfg: EngineConfig, run: Run, n: nat, x: string)
    requires cfg.Valid() && IsRun(cfg, run) && n < |run.states| && x in cfg.sources
    ensures var slot := SlotAt(cfg, run, n, x);
            slot.latest.Some? ==> slot.generation == Some(slot.latest.value.generation)
  {
    StatesKeepInv(cfg, run, n);
    assert SourceInv(cfg, x, run.states[n].bindings.slots[x], run.states[n].bindings.endpoints[x],
                     run.states[n].timing.lastSteady);
  }

  lemma ActiveRepeats(cfg: EngineConfig, run: Run, n: nat, d: M.Decision)
    requires cfg.Valid() && IsRun(cfg, run) && n < |run.states| && d.state.Active? && d.selected.Some?
    requires var x := d.selected.value.sourceId; x in cfg.sources && SlotAt(cfg, run, n, x).latest == d.selected
    ensures CanonicalCommand(d).Some?
    ensures exists i: nat, x :: IsAcceptedSample(cfg, run, n, i, x, CanonicalCommand(d).value)
  {
    var x := d.selected.value.sourceId;
    SnapshotsCameFrom(cfg, run, n, x);
    HeldIsBound(cfg, run, n, x);
    var i: nat :| CameFrom(cfg, run, i, n, x, d.selected.value);
    SampleRepeated(cfg, run, i, x, d);
    assert IsAcceptedSample(cfg, run, n, i, x, CanonicalCommand(d).value);
  }

  // So an adapter that has confirmed the gateway never refuses a HOLD, and a
  // NORMAL command only when its clock or the command's age is the reason.
  lemma AdapterTakesCanonical(cfg: EngineConfig, run: Run, n: nat, actual: PublisherKey,
                              endpoint: G.EndpointSnapshot, nowRosNs: int64, clockHealthy: bool)
    requires cfg.Valid() && IsRun(cfg, run) && n < |run.events| && G.Coherent(endpoint)
    requires run.outcomes[n].Done? && run.outcomes[n].result.Some?
    ensures var command := run.outcomes[n].result.value.canonical;
            var verdict := G.Validate(command, actual, endpoint, nowRosNs, clockHealthy, cfg.rules);
            && (verdict.Some? ==>
                  || G.IsEndpointReason(verdict.value)
                  || (command.mode == MODE_NORMAL && G.IsTimeReason(verdict.value)))
            && (command.mode == MODE_HOLD ==>
                  (verdict.None? <==> G.FromConfirmedGateway(actual, endpoint, cfg.rules)))
  {
    CanonicalIsHoldOrAccepted(cfg, run, n);
    G.WellFormedRefusals(run.outcomes[n].result.value.canonical, actual, endpoint, nowRosNs, clockHealthy, cfg.rules);
  }
}
