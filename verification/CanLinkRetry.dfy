// A frame the kernel would not take is the next one it gets, unless a safety
// request overtakes it (control_link_adapters/src/socketcan_transport.cpp).
module CanLinkRetry {
  import opened Common
  import opened SocketCanAdapter
  import opened CanLink
  import opened CanLinkSafety

  // The flag is taken in one of the steps from i on and before k.
  ghost predicate Overtaken(states: seq<LinkState>, steps: seq<Step>, i: nat, k: nat)
    requires k < |states| && |states| == |steps| + 1
  {
    exists j :: i <= j < k && steps[j].IoExchange? && states[j].immediate
  }

  // Nothing joined the n frames on the bus and p waits its turn, or the I/O
  // thread is done.
  predicate Waits(s: LinkState, p: Pending, n: nat) {
    && |s.bus| == n
    && (match s.io
        case Polling => s.retry == Some(p)
        case Writing(f) => f == p && s.retry == Some(p)
        case ReportingRetry(f) => f == p
        case ReportingFatal => true
        case Stopped => true
        case Building(_) => false
        case Confirming(_) => false)
  }

  lemma BusGrows(cfg: AdapterConfig, s: LinkState, step: Step)
    requires cfg.Valid() && Enabled(s, step)
    ensures s.bus <= Next(cfg, s, step).bus
  {
    match step
    case RosPoll(snapshot) =>
    case RosCommand(command, publisher, nowRosNs, now) =>
    case RosForce =>
    case RosRaise =>
    case IoExchange(due) =>
    case IoBuild(now) =>
    case IoWrite(outcome) =>
    case IoConfirm =>
    case IoReport =>
    case IoFail =>
    case IoStop =>
  }

  // Settled so far: p is on the bus at position n, or still waits.
  predicate NextIs(s: LinkState, p: Pending, n: nat) {
    if |s.bus| > n then s.bus[n] == p else Waits(s, p, n)
  }

  lemma WaitsOrJoins(cfg: AdapterConfig, s: LinkState, step: Step, p: Pending, n: nat)
    requires cfg.Valid() && Enabled(s, step) && Waits(s, p, n)
    requires !(step.IoExchange? && s.immediate)
    ensures NextIs(Next(cfg, s, step), p, n)
  {
    match step
    case RosPoll(snapshot) =>
    case RosCommand(command, publisher, nowRosNs, now) =>
    case RosForce =>
    case RosRaise =>
    case IoExchange(due) =>
    case IoBuild(now) =>
    case IoWrite(outcome) =>
    case IoConfirm =>
    case IoReport =>
    case IoFail =>
    case IoStop =>
  }

  lemma StepKeepsNext(cfg: AdapterConfig, s: LinkState, step: Step, p: Pending, n: nat)
    requires cfg.Valid() && Enabled(s, step) && NextIs(s, p, n) && !(step.IoExchange? && s.immediate)
    ensures NextIs(Next(cfg, s, step), p, n)
  {
    if |s.bus| > n {
      BusGrows(cfg, s, step);
      assert Next(cfg, s, step).bus[n] == s.bus[n];
    } else {
      WaitsOrJoins(cfg, s, step, p, n);
    }
  }

  lemma BlockedWaits(cfg: AdapterConfig, states: seq<LinkState>, steps: seq<Step>, clock: int, i: nat)
    requires cfg.Valid() && IsRun(cfg, states, steps, clock) && i < |steps| && steps[i] == IoWrite(WouldBlock)
    ensures states[i].io.Writing? && NextIs(states[i + 1], states[i].io.f, |states[i].bus|)
  {
    var s := states[i];
    RunsKeepInv(cfg, states, steps, clock, i);
    assert Enabled(s, steps[i]) && states[i + 1] == WriteStep(s, WouldBlock);
    EncodedCounter(cfg, s.io.f);
  }

  lemma {:induction false} BlockedStays(cfg: AdapterConfig, states: seq<LinkState>, steps: seq<Step>, clock: int,
                                        i: nat, k: nat)
    requires cfg.Valid() && IsRun(cfg, states, steps, clock) && i < k < |states|
    requires steps[i] == IoWrite(WouldBlock) && !Overtaken(states, steps, i, k)
    ensures states[i].io.Writing? && NextIs(states[k], states[i].io.f, |states[i].bus|)
  {
    if k == i + 1 {
      BlockedWaits(cfg, states, steps, clock, i);
    } else {
      BlockedStays(cfg, states, steps, clock, i, k - 1);
      assert states[k] == Next(cfg, states[k - 1], steps[k - 1]);
      StepKeepsNext(cfg, states[k - 1], steps[k - 1], states[i].io.f, |states[i].bus|);
    }
  }

  // Over any run: once a write of p would block, the next frame to join the
  // bus is p itself, unless the flag is taken before.
  lemma BlockedFrameIsNext(cfg: AdapterConfig, states: seq<LinkState>, steps: seq<Step>, clock: int, i: nat, k: nat)
    requires cfg.Valid() && IsRun(cfg, states, steps, clock) && i < k < |states|
    requires steps[i] == IoWrite(WouldBlock)
    ensures states[i].io.Writing?
    ensures |states[k].bus| > |states[i].bus| ==>
              Overtaken(states, steps, i, k) || states[k].bus[|states[i].bus|] == states[i].io.f
    ensures states[k].io.Polling? && |states[k].bus| <= |states[i].bus| ==>
              Overtaken(states, steps, i, k) || states[k].retry == Some(states[i].io.f)
  {
    BlockedWaits(cfg, states, steps, clock, i);
    if !Overtaken(states, steps, i, k) {
      BlockedStays(cfg, states, steps, clock, i, k);
    }
  }
}
