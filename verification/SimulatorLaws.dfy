// What the simulated vehicle does with each control frame, with silence and
// with its own state frames (control_link_bringup/tools/vcan_vehicle_simulator.cpp).
module SimulatorLaws {
  import opened Common
  import opened CanCodec
  import opened RollingCounter
  import opened VehicleSimulator
  import L = FrameLayout

  // ------------------------------------------------------------- control

  // The frame decodes and its counter follows the one before.
  predicate Followed(cfg: SimConfig, s: SimState, frame: CanFrame)
    requires cfg.Valid()
  {
    && DecodeControl(cfg.codec, frame).Ok?
    && DecodeControl(cfg.codec, frame).value.rollingCounter < cfg.codec.modulo
    && (s.baseline.Some? ==>
          DecodeControl(cfg.codec, frame).value.rollingCounter == (s.baseline.value + 1) % cfg.codec.modulo)
  }

  // Such a frame renews the lease and sets the course: ACTIVE its velocities,
  // HOLD a standstill. Every other frame only counts as rejected.
  lemma ControlFollowed(cfg: SimConfig, s: SimState, frame: CanFrame, at: int)
    requires cfg.Valid() && HandleControl(cfg, s, frame, at).Some?
    requires s.baseline.Some? ==> s.baseline.value < cfg.codec.modulo
    ensures var t := HandleControl(cfg, s, frame, at).value;
            && (Followed(cfg, s, frame) ==>
                  var signals := DecodeControl(cfg.codec, frame).value;
                  && t.lease == Some(at) && t.baseline == Some(signals.rollingCounter)
                  && t.lastControlCounter == signals.rollingCounter
                  && t.accepted == s.accepted + 1 && t.rejected == s.rejected
                  && (signals.mode.Hold? ==> t.target == Motion(0.0, 0.0) && t.mode == Standby)
                  && (signals.mode.Active? ==>
                        && Finite(t.target.speed) == signals.targetSpeed && Finite(t.target.yawRate) == signals.targetYawRate
                        && t.mode == if s.injected.faultCode == 0 then Running else CanVehicleMode.Fault))
            && (!Followed(cfg, s, frame) ==>
                  t == s.(baseline := t.baseline, rejected := s.rejected + 1))
            && t.measured == s.measured && t.fatal == s.fatal && t.injected == s.injected
            && t.lastModelUpdate == s.lastModelUpdate && t.nextStateCounter == s.nextStateCounter
  {
    if s.baseline.Some? {
      NextCounter(s.baseline.value, cfg.codec.modulo);
    }
  }

  // --------------------------------------------------------------- model

  // A fatal error, a lease that never began, and one that ran out.
  predicate Unled(cfg: SimConfig, s: SimState, now: int) {
    s.fatal || s.lease.None? || now - s.lease.value > cfg.watchdogTimeoutNs
  }

  // Without a leader the vehicle makes for a standstill in a safe stop, with an
  // injected fault in that fault, and otherwise it keeps its course; and what is
  // left of the way shrinks by the decay, or at once.
  lemma ModelMoves(cfg: SimConfig, s: SimState, now: int, decay: real)
    requires UpdateModel(cfg, s, now, decay).Some?
    ensures var t := UpdateModel(cfg, s, now, decay).value;
            && t.lastModelUpdate == now && t.lease == s.lease && t.baseline == s.baseline
            && (Unled(cfg, s, now) ==> t.target == Motion(0.0, 0.0) && t.mode == SafeStop)
            && (!Unled(cfg, s, now) && s.injected.faultCode != 0 ==>
                  t.target == Motion(0.0, 0.0) && t.mode == CanVehicleMode.Fault)
            && (!Unled(cfg, s, now) && s.injected.faultCode == 0 ==> t.target == s.target && t.mode == s.mode)
            && (!cfg.laggy ==> t.measured == t.target)
            && (cfg.laggy ==>
                  && t.measured.speed - t.target.speed == decay * (s.measured.speed - t.target.speed)
                  && t.measured.yawRate - t.target.yawRate == decay * (s.measured.yawRate - t.target.yawRate))
  {
    var t := UpdateModel(cfg, s, now, decay).value;
    RestOfWay(s.measured.speed, t.target.speed, decay);
    RestOfWay(s.measured.yawRate, t.target.yawRate, decay);
  }

  lemma RestOfWay(from: real, to: real, decay: real)
    ensures Toward(from, to, 1.0 - decay) - to == decay * (from - to)
    ensures Toward(from, to, 1.0) == to
  {
    assert (1.0 - decay) * (to - from) == (to - from) - decay * (to - from);
    assert decay * (to - from) == -(decay * (from - to));
  }

  // -------------------------------------------------------------- frames

  // A state frame shows the mode, the measured values to within half a step,
  // the fault code in a fault, and both counters; with an injected checksum
  // error it is refused for its checksum.
  lemma FrameShows(cfg: SimConfig, s: SimState, now: int, decay: real)
    requires cfg.Valid() && BuildState(cfg, s, now, decay).0.Built?
    ensures var (outcome, t) := BuildState(cfg, s, now, decay);
            var f := outcome.frame;
            && (s.injected.corruptCrc ==> DecodeState(cfg.codec, f) == Err(CrcMismatch))
            && (!s.injected.corruptCrc ==> L.Standard(f, cfg.codec.stateCanId) && L.CrcMatches(cfg.codec, f))
            && L.Says(f.data[0], f.data[1], cfg.codec.speedScale, t.measured.speed)
            && L.Says(f.data[2], f.data[3], cfg.codec.yawRateScale, t.measured.yawRate)
            && f.data[4] == (match t.mode case Standby => 0 case Running => 1 case SafeStop => 2 case Fault => 3)
            && f.data[5] == (if t.mode.Fault? then s.injected.faultCode as bv8 else 0)
            && f.data[6] & 0x0F == s.nextStateCounter as bv8 && f.data[6] >> 4 == s.lastControlCounter as bv8
  {
    var t := BuildState(cfg, s, now, decay).1;
    var frame := StateFrameFor(cfg.codec, StateSignals(t)).value;
    BuiltFrom(cfg, s, now, decay);
    L.StateLayout(cfg.codec, StateSignals(t));
    FlippedCrc(cfg, frame);
  }

  // The frame is the one of the updated state, whose counters and injected
  // faults are those from before.
  lemma BuiltFrom(cfg: SimConfig, s: SimState, now: int, decay: real)
    requires cfg.Valid() && BuildState(cfg, s, now, decay).0.Built?
    ensures var (outcome, t) := BuildState(cfg, s, now, decay);
            && StateFrameFor(cfg.codec, StateSignals(t)).Ok?
            && outcome.frame == (if s.injected.corruptCrc then FlipCrc(StateFrameFor(cfg.codec, StateSignals(t)).value)
                                 else StateFrameFor(cfg.codec, StateSignals(t)).value)
            && t.injected == s.injected && t.nextStateCounter == s.nextStateCounter
            && t.lastControlCounter == s.lastControlCounter
  {
  }

  lemma FlippedCrc(cfg: SimConfig, frame: CanFrame)
    requires cfg.Valid() && L.Standard(frame, cfg.codec.stateCanId) && L.CrcMatches(cfg.codec, frame)
    ensures DecodeState(cfg.codec, FlipCrc(frame)) == Err(CrcMismatch)
    ensures forall k :: 0 <= k < 7 ==> FlipCrc(frame).data[k] == frame.data[k]
  {
    assert FlipCrc(frame).data[..7] == frame.data[..7];
    FlippedDiffers(frame.data[7]);
  }

  lemma FlippedDiffers(crc: bv8)
    ensures crc ^ 0xFF != crc
  {
  }

  // ---------------------------------------------------------------- runs

  lemma EventLeases(cfg: SimConfig, r: SimRun, e: SimEvent)
    requires cfg.Valid() && Enabled(r, e) && NextRun(cfg, r, e).Some?
    ensures var t := NextRun(cfg, r, e).value.state;
            && r.state.accepted <= t.accepted
            && (t.accepted == r.state.accepted ==> t.lease == r.state.lease)
            && (t.accepted > r.state.accepted ==> e.ControlReceived? && t.lease == Some(e.at))
  {
    match e
    case ControlReceived(frame, at) =>
    case IoFailed(isFatal) =>
    case ParametersRead(injected) =>
    case StateDue(now, decay) =>
    case StateSent =>
  }

  // What an event does to the lease and to the number of accepted frames.
  predicate Leases(s: SimState, t: SimState, e: SimEvent) {
    && s.accepted <= t.accepted && (t.accepted == s.accepted ==> t.lease == s.lease)
    && (t.accepted > s.accepted ==> e.ControlReceived? && t.lease == Some(e.at))
  }

  lemma LeaseAt(cfg: SimConfig, runs: seq<SimRun>, events: seq<SimEvent>, i: nat)
    requires cfg.Valid() && IsRun(cfg, runs, events) && i < |events|
    ensures Leases(runs[i].state, runs[i + 1].state, events[i])
  {
    assert NextRun(cfg, runs[i], events[i]) == Some(runs[i + 1]) && Enabled(runs[i], events[i]);
    EventLeases(cfg, runs[i], events[i]);
  }

  // Between two positions of a run at which as many frames are accepted the
  // lease stays.
  lemma {:induction false} LeaseKept(runs: seq<SimRun>, events: seq<SimEvent>, i: nat, k: nat)
    requires |runs| == |events| + 1 && i <= k < |runs|
    requires forall j :: 0 <= j < |events| ==> Leases(runs[j].state, runs[j + 1].state, events[j])
    ensures runs[i].state.accepted <= runs[k].state.accepted
    ensures runs[i].state.accepted == runs[k].state.accepted ==> runs[k].state.lease == runs[i].state.lease
    decreases k
  {
    if i < k {
      LeaseKept(runs, events, i, k - 1);
      assert Leases(runs[k - 1].state, runs[k].state, events[k - 1]);
    }
  }

  // A vehicle that is left without an accepted control frame for longer than
  // the watchdog's timeout is in a safe stop, whatever else arrives.
  lemma SilenceStops(cfg: SimConfig, runs: seq<SimRun>, events: seq<SimEvent>, i: nat, k: nat)
    requires cfg.Valid() && IsRun(cfg, runs, events) && i < k < |events|
    requires events[i].ControlReceived? && runs[i + 1].state.accepted == runs[i].state.accepted + 1
    requires runs[k].state.accepted == runs[i + 1].state.accepted
    requires events[k].StateDue? && events[k].now - events[i].at > cfg.watchdogTimeoutNs
    ensures runs[k + 1].state.mode == SafeStop && runs[k + 1].state.target == Motion(0.0, 0.0)
  {
    forall j | 0 <= j < |events|
      ensures Leases(runs[j].state, runs[j + 1].state, events[j])
    {
      LeaseAt(cfg, runs, events, j);
    }
    LeaseKept(runs, events, i + 1, k);
    assert NextRun(cfg, runs[k], events[k]) == Some(runs[k + 1]) && Enabled(runs[k], events[k]);
    ModelMoves(cfg, runs[k].state, events[k].now, events[k].decay);
  }

  // The state frames that were sent with a running counter.
  function Counted(runs: seq<SimRun>, events: seq<SimEvent>, n: nat): nat
    requires n <= |events| < |runs|
  {
    if n == 0 then 0
    else
      Counted(runs, events, n - 1) +
      (if events[n - 1].StateSent? && !runs[n - 1].state.injected.freezeCounter then 1 else 0)
  }

  lemma EventCounts(cfg: SimConfig, r: SimRun, e: SimEvent)
    requires cfg.Valid() && Enabled(r, e) && NextRun(cfg, r, e).Some?
    ensures NextRun(cfg, r, e).value.state.nextStateCounter ==
            if e.StateSent? && !r.state.injected.freezeCounter then (r.state.nextStateCounter + 1) % cfg.codec.modulo
            else r.state.nextStateCounter
  {
    match e
    case ControlReceived(frame, at) =>
    case IoFailed(isFatal) =>
    case ParametersRead(injected) =>
    case StateDue(now, decay) =>
    case StateSent =>
  }

  // What an event does to the state counter.
  predicate Counts(modulo: uint8, r: SimRun, t: SimRun, e: SimEvent)
    requires modulo > 0
  {
    t.state.nextStateCounter ==
    if e.StateSent? && !r.state.injected.freezeCounter then (r.state.nextStateCounter + 1) % modulo
    else r.state.nextStateCounter
  }

  lemma CounterAt(cfg: SimConfig, runs: seq<SimRun>, events: seq<SimEvent>, i: nat)
    requires cfg.Valid() && IsRun(cfg, runs, events) && i < |events|
    ensures Counts(cfg.codec.modulo, runs[i], runs[i + 1], events[i])
  {
    assert NextRun(cfg, runs[i], events[i]) == Some(runs[i + 1]) && Enabled(runs[i], events[i]);
    EventCounts(cfg, runs[i], events[i]);
  }

  lemma {:induction false} CountsAdd(modulo: uint8, runs: seq<SimRun>, events: seq<SimEvent>, n: nat)
    requires modulo >= 2 && n <= |events| < |runs| && runs[0].state.nextStateCounter == 0
    requires forall j :: 0 <= j < |events| ==> Counts(modulo, runs[j], runs[j + 1], events[j])
    ensures runs[n].state.nextStateCounter == Counted(runs, events, n) % modulo
  {
    if n > 0 {
      CountsAdd(modulo, runs, events, n - 1);
      assert Counts(modulo, runs[n - 1], runs[n], events[n - 1]);
      NextResidue(Counted(runs, events, n - 1), modulo);
    }
  }

  lemma NextResidue(count: nat, modulo: nat)
    requires modulo >= 2
    ensures (count % modulo + 1) % modulo == (count + 1) % modulo
  {
    ResidueOfSum(count, 1, modulo);
    NextCounter(count % modulo, modulo);
  }

  // The state counter is the number of state frames sent while it was not
  // frozen, modulo N.
  lemma CounterCounts(cfg: SimConfig, runs: seq<SimRun>, events: seq<SimEvent>, n: nat)
    requires cfg.Valid() && IsRun(cfg, runs, events) && n < |runs|
    ensures runs[n].state.nextStateCounter == Counted(runs, events, n) % cfg.codec.modulo
  {
    forall j | 0 <= j < |events|
      ensures Counts(cfg.codec.modulo, runs[j], runs[j + 1], events[j])
    {
      CounterAt(cfg, runs, events, j);
    }
    CountsAdd(cfg.codec.modulo, runs, events, n);
  }
}
