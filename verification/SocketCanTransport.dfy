// The transmit half of the I/O loop as it runs: one pass after another, with
// the retry frame and the immediate flag as its fields
// (control_link_adapters/src/socketcan_transport.cpp). A pass is a sequence of
// steps of the interleaved model, so whatever holds of its runs holds here.
module SocketCanTransport {
  import opened Common
  import opened CanCodec
  import opened SocketCanAdapter
  import opened CanLink
  import opened CanLinkSafety

  // What the clock and the kernel answer in one pass.
  datatype Answers = Answers(due: bool, now: int, outcome: WriteOutcome)

  datatype TransmitResult = ResultSent | ResultRetry | ResultFatal

  // ------------------------------------------- a pass, step by step

  function AfterBuild(cfg: AdapterConfig, s: LinkState, now: int): LinkState
    requires cfg.Valid()
  {
    if s.io.Building? then BuildStep(cfg, s, now) else s
  }

  function AfterWrite(s: LinkState, outcome: WriteOutcome): LinkState {
    if s.io.Writing? then WriteStep(s, outcome) else s
  }

  function AfterConfirm(cfg: AdapterConfig, s: LinkState): LinkState
    requires cfg.Valid()
  {
    if s.io.Confirming? then ConfirmStep(cfg, s) else s
  }

  function AfterReport(s: LinkState): LinkState {
    match s.io
    case ReportingRetry(f) => s.(retry := Some(f), io := Polling)
    case ReportingFatal => s.(io := Stopped)
    case _ => s
  }

  // The write, the success handler and the error handler.
  function AfterTransmit(cfg: AdapterConfig, s: LinkState, outcome: WriteOutcome): LinkState
    requires cfg.Valid()
  {
    AfterReport(AfterConfirm(cfg, AfterWrite(s, outcome)))
  }

  function PassOf(cfg: AdapterConfig, s: LinkState, a: Answers): LinkState
    requires cfg.Valid() && s.io.Polling?
  {
    AfterTransmit(cfg, AfterBuild(cfg, ExchangeStep(s, a.due), a.now), a.outcome)
  }

  // The passes of a loop that ends once it has stopped.
  function PassesOf(cfg: AdapterConfig, s: LinkState, passes: seq<Answers>): LinkState
    requires cfg.Valid()
    decreases |passes|
  {
    if passes == [] then s
    else
      var before := PassesOf(cfg, s, passes[..|passes| - 1]);
      if before.io.Polling? then PassOf(cfg, before, passes[|passes| - 1]) else before
  }

  ghost predicate ClockRuns(passes: seq<Answers>, start: int) {
    && (forall i :: 0 <= i < |passes| ==> start <= passes[i].now)
    && forall i, j :: 0 <= i < j < |passes| ==> passes[i].now <= passes[j].now
  }

  // --------------------------------------------------------- the object

  // The frame is the one that joined the bus.
  predicate Joined(before: seq<Pending>, after: seq<Pending>, frame: CanFrame) {
    |after| == |before| + 1 && after[..|before|] == before && after[|before|].frame == frame
  }

  function FrameOf(p: Option<Pending>): Option<CanFrame> {
    if p.Some? then Some(p.value.frame) else None
  }

  class Transport {
    const cfg: AdapterConfig
    const adapter: Adapter
    var retryFrame: Option<CanFrame>
    var immediateRequested: bool
    var stopped: bool
    ghost var link: LinkState

    ghost predicate Shows(s: LinkState)
      reads this, adapter
    {
      && cfg.Valid() && adapter.cfg == cfg && adapter.Command() == s.command
      && retryFrame == FrameOf(s.retry) && immediateRequested == s.immediate
    }

    // Between two passes.
    ghost predicate Valid()
      reads this, adapter
    {
      Shows(link) && Reachable(cfg, link) && (if stopped then link.io.Stopped? else link.io.Polling?)
    }

    constructor (cfg: AdapterConfig, adapter: Adapter, now: int)
      requires cfg.Valid() && adapter.cfg == cfg && adapter.Command() == InitialCommandSide()
      ensures Valid() && link == Init(now) && this.cfg == cfg && this.adapter == adapter
    {
      this.cfg, this.adapter := cfg, adapter;
      retryFrame, immediateRequested, stopped, link := None, false, false, Init(now);
      new;
      Started(cfg, now);
    }

    method RequestImmediateTransmit()
      requires Valid() && link.ros.RaisingFlag?
      modifies `immediateRequested, `link
      ensures Valid() && link == Next(cfg, old(link), RosRaise)
    {
      StepReaches(cfg, link, RosRaise);
      immediateRequested, link := true, Next(cfg, link, RosRaise);
    }

    // The exchange of the flag, and what is due in this pass.
    method TakeFlag(due: bool) returns (immediate: bool)
      requires Shows(link) && link.io.Polling?
      modifies `immediateRequested, `link
      ensures Shows(link) && link == ExchangeStep(old(link), due)
      ensures immediate == old(immediateRequested) && retryFrame == old(retryFrame)
    {
      immediate := immediateRequested;
      immediateRequested := false;
      link := ExchangeStep(link, due);
    }

    // The transmit handler, whose exception ends the loop. A frame built for a
    // safety request replaces the one that waits for a retry.
    method CallTransmitHandler(immediate: bool, now: int) returns (frame: Option<CanFrame>)
      requires Shows(link) && link.io == Building(immediate)
      modifies `retryFrame, `link, adapter
      ensures Shows(link) && link == BuildStep(cfg, old(link), now)
      ensures frame.Some? ==> link.io.Writing? && link.io.f.frame == frame.value
      ensures frame.None? ==> link.io.ReportingFatal?
    {
      var built := adapter.MakePeriodicControlFrame(now);
      link := BuildStep(cfg, link, now);
      if built.Err? {
        return None;
      }
      if immediate {
        retryFrame := Some(built.value.frame);
      }
      return Some(built.value.frame);
    }

    // One write, its success handler included.
    method TransmitFrame(frame: CanFrame, outcome: WriteOutcome) returns (result: TransmitResult)
      requires Shows(link) && link.io.Writing? && link.io.f.frame == frame
      modifies `link, adapter
      ensures link == AfterConfirm(cfg, AfterWrite(old(link), outcome))
      ensures adapter.Command() == link.command && FrameOf(link.retry) == if result.ResultSent? then None else retryFrame
      ensures link.immediate == immediateRequested
      ensures match result
              case ResultSent => link.io.Polling?
              case ResultRetry => link.io.ReportingRetry? && link.io.f.frame == frame
              case ResultFatal => link.io.ReportingFatal?
    {
      var written := AfterWrite(link, outcome);
      if frame.canId > (if frame.isExtended then 0x1FFF_FFFF else 0x7FF) || frame.dlc > 8 {
        link := AfterConfirm(cfg, written);
        return ResultFatal;
      }
      match outcome {
        case Sent =>
          var confirmed := adapter.ConfirmControlFrameTransmitted(frame);
          link := AfterConfirm(cfg, written);
          return if confirmed then ResultSent else ResultFatal;
        case WouldBlock =>
          link := AfterConfirm(cfg, written);
          return ResultRetry;
        case Failed =>
          link := AfterConfirm(cfg, written);
          return ResultFatal;
      }
    }

    // The error handler is the adapter's; a fatal error ends the loop.
    method ReportError(isFatal: bool)
      requires if isFatal then link.io.ReportingFatal? else link.io.ReportingRetry?
      modifies `stopped, `link, adapter
      ensures adapter.Command() == old(adapter.Command()) && link == AfterReport(old(link))
      ensures stopped == (old(stopped) || isFatal) && (isFatal ==> adapter.fatal)
      ensures !isFatal ==> adapter.Feedback() == old(adapter.Feedback())
    {
      adapter.HandleCanError(isFatal);
      stopped := stopped || isFatal;
      link := AfterReport(link);
    }

    method SendFrame(frame: CanFrame, outcome: WriteOutcome)
      requires Shows(link) && link.io.Writing? && link.io.f.frame == frame && !stopped
      modifies this, adapter
      ensures Shows(link) && link == AfterTransmit(cfg, old(link), outcome)
      ensures if stopped then link.io.Stopped? && adapter.fatal else link.io.Polling?
    {
      var result := TransmitFrame(frame, outcome);
      match result {
        case ResultFatal => ReportError(true);
        case ResultRetry =>
          ReportError(false);
          retryFrame := Some(frame);
        case ResultSent => retryFrame := None;
      }
    }

    method Pass(a: Answers)
      requires Shows(link) && link.io.Polling? && !stopped
      modifies this, adapter
      ensures Shows(link) && link == PassOf(cfg, old(link), a)
      ensures if stopped then link.io.Stopped? && adapter.fatal else link.io.Polling?
    {
      var immediate := TakeFlag(a.due);
      if !immediate && !a.due {
        return;
      }
      var frame := if immediate then None else retryFrame;
      if frame.None? {
        frame := CallTransmitHandler(immediate, a.now);
      }
      if frame.None? {
        ReportError(true);
      } else {
        SendFrame(frame.value, a.outcome);
      }
    }

    // One pass of the loop, from the exchange of the flag on: what waits for a
    // retry is offered to the kernel again, and a raised flag overrides it.
    method RunPass(a: Answers)
      requires Valid() && !stopped && link.clock <= a.now
      modifies this, adapter
      ensures Valid() && link == PassOf(cfg, old(link), a) && link.clock <= a.now
      ensures stopped ==> adapter.fatal
      ensures !a.due && !old(immediateRequested) ==>
                !stopped && link.bus == old(link.bus) && retryFrame == old(retryFrame)
      ensures a.due && !old(immediateRequested) && old(retryFrame).Some? ==>
                && (a.outcome.Sent? ==>
                      !stopped && retryFrame.None? && Joined(old(link.bus), link.bus, old(retryFrame).value))
                && (a.outcome.WouldBlock? ==> !stopped && retryFrame == old(retryFrame) && link.bus == old(link.bus))
                && (a.outcome.Failed? ==> stopped && link.bus == old(link.bus))
      ensures old(immediateRequested) || (a.due && old(retryFrame).None?) ==>
                !immediateRequested && match BuildRegion(cfg, old(adapter.Command()), a.now).0
                case Err(_) => stopped && link.bus == old(link.bus)
                case Ok(b) =>
                  && (a.outcome.Sent? ==> !stopped && retryFrame.None? && Joined(old(link.bus), link.bus, b.frame))
                  && (a.outcome.WouldBlock? ==> !stopped && retryFrame == Some(b.frame) && link.bus == old(link.bus))
                  && (a.outcome.Failed? ==> stopped && link.bus == old(link.bus))
    {
      PassReaches(cfg, link, a);
      PassDecided(cfg, link, a);
      Pass(a);
    }

    // The loop, until it stops or the answers end.
    method Run(passes: seq<Answers>)
      requires Valid() && !stopped && ClockRuns(passes, link.clock)
      modifies this, adapter
      ensures Valid() && link == PassesOf(cfg, old(link), passes)
      ensures stopped ==> adapter.fatal
    {
      ghost var start := link;
      for i := 0 to |passes|
        invariant Valid() && link == PassesOf(cfg, start, passes[..i])
        invariant stopped ==> adapter.fatal
        invariant forall j :: i <= j < |passes| ==> link.clock <= passes[j].now
      {
        assert passes[..i + 1][..i] == passes[..i];
        if stopped {
          StoppedForGood(cfg, start, passes, i);
          return;
        }
        RunPass(passes[i]);
      }
      assert passes[..|passes|] == passes;
    }
  }

  // ------------------------------------------- passes are steps of runs

  lemma {:induction false} StoppedForGood(cfg: AdapterConfig, s: LinkState, passes: seq<Answers>, n: nat)
    requires cfg.Valid() && n <= |passes| && PassesOf(cfg, s, passes[..n]).io.Stopped?
    ensures PassesOf(cfg, s, passes) == PassesOf(cfg, s, passes[..n])
    decreases |passes|
  {
    if n < |passes| {
      var front := passes[..|passes| - 1];
      assert front[..n] == passes[..n];
      StoppedForGood(cfg, s, front, n);
    } else {
      assert passes[..n] == passes;
    }
  }

  lemma ExchangeReaches(cfg: AdapterConfig, s: LinkState, due: bool)
    requires cfg.Valid() && Reachable(cfg, s) && s.io.Polling?
    ensures var t := ExchangeStep(s, due);
            Reachable(cfg, t) && t.clock == s.clock && (t.io.Polling? || t.io.Building? || t.io.Writing?)
  {
    StepReaches(cfg, s, IoExchange(due));
  }

  lemma BuildReaches(cfg: AdapterConfig, s: LinkState, now: int)
    requires cfg.Valid() && Reachable(cfg, s) && s.clock <= now
    requires s.io.Polling? || s.io.Building? || s.io.Writing?
    ensures var t := AfterBuild(cfg, s, now);
            Reachable(cfg, t) && t.clock <= now && (t.io.Polling? || t.io.Writing? || t.io.ReportingFatal?)
  {
    if s.io.Building? {
      StepReaches(cfg, s, IoBuild(now));
    }
  }

  lemma WriteReaches(cfg: AdapterConfig, s: LinkState, outcome: WriteOutcome)
    requires cfg.Valid() && Reachable(cfg, s) && (s.io.Polling? || s.io.Writing? || s.io.ReportingFatal?)
    ensures var t := AfterWrite(s, outcome);
            && Reachable(cfg, t) && t.clock == s.clock
            && (t.io.Polling? || t.io.Confirming? || t.io.ReportingRetry? || t.io.ReportingFatal?)
  {
    if s.io.Writing? {
      StepReaches(cfg, s, IoWrite(outcome));
    }
  }

  lemma ConfirmReaches(cfg: AdapterConfig, s: LinkState)
    requires cfg.Valid() && Reachable(cfg, s)
    requires s.io.Polling? || s.io.Confirming? || s.io.ReportingRetry? || s.io.ReportingFatal?
    ensures var t := AfterConfirm(cfg, s);
            && Reachable(cfg, t) && t.clock == s.clock
            && (t.io.Polling? || t.io.ReportingRetry? || t.io.ReportingFatal?)
  {
    if s.io.Confirming? {
      StepReaches(cfg, s, IoConfirm);
    }
  }

  lemma ReportReaches(cfg: AdapterConfig, s: LinkState)
    requires cfg.Valid() && Reachable(cfg, s) && (s.io.Polling? || s.io.ReportingRetry? || s.io.ReportingFatal?)
    ensures var t := AfterReport(s); Reachable(cfg, t) && t.clock == s.clock && (t.io.Polling? || t.io.Stopped?)
  {
    if !s.io.Polling? {
      StepReaches(cfg, s, IoReport);
    }
  }

  // A pass that the other thread does not interrupt is a run of steps.
  lemma PassReaches(cfg: AdapterConfig, s: LinkState, a: Answers)
    requires cfg.Valid() && Reachable(cfg, s) && s.io.Polling? && s.clock <= a.now
    ensures var t := PassOf(cfg, s, a); Reachable(cfg, t) && t.clock <= a.now && (t.io.Polling? || t.io.Stopped?)
  {
    ExchangeReaches(cfg, s, a.due);
    var s1 := ExchangeStep(s, a.due);
    BuildReaches(cfg, s1, a.now);
    var s2 := AfterBuild(cfg, s1, a.now);
    WriteReaches(cfg, s2, a.outcome);
    var s3 := AfterWrite(s2, a.outcome);
    ConfirmReaches(cfg, s3);
    ReportReaches(cfg, AfterConfirm(cfg, s3));
  }

  // A pass that is due offers the frame that waits for a retry to the kernel
  // again; a taken flag, or a due pass with nothing waiting, offers a new one.
  lemma PassDecided(cfg: AdapterConfig, s: LinkState, a: Answers)
    requires cfg.Valid() && Reachable(cfg, s) && s.io.Polling? && s.clock <= a.now
    ensures !a.due && !s.immediate ==> PassOf(cfg, s, a) == s
    ensures a.due && !s.immediate && s.retry.Some? ==> Offered(s, PassOf(cfg, s, a), s.retry.value.frame, a.outcome)
    ensures s.immediate || (a.due && s.retry.None?) ==>
              !PassOf(cfg, s, a).immediate && match BuildRegion(cfg, s.command, a.now).0
              case Err(_) => PassOf(cfg, s, a).io.Stopped? && PassOf(cfg, s, a).bus == s.bus
              case Ok(b) => Offered(s, PassOf(cfg, s, a), b.frame, a.outcome)
  {
    var s1 := ExchangeStep(s, a.due);
    ExchangeReaches(cfg, s, a.due);
    if s1.io.Building? {
      BuildReaches(cfg, s1, a.now);
      var s2 := BuildStep(cfg, s1, a.now);
      if s2.io.Writing? {
        TransmitDecided(cfg, s2, a.outcome);
      }
    } else if s1.io.Writing? {
      TransmitDecided(cfg, s1, a.outcome);
    }
  }

  // The kernel took the frame, would have blocked on it, or failed.
  predicate Offered(s: LinkState, t: LinkState, frame: CanFrame, outcome: WriteOutcome) {
    match outcome
    case Sent => t.io.Polling? && t.retry.None? && Joined(s.bus, t.bus, frame)
    case WouldBlock => t.io.Polling? && FrameOf(t.retry) == Some(frame) && t.bus == s.bus
    case Failed => t.io.Stopped? && t.bus == s.bus
  }

  lemma TransmitDecided(cfg: AdapterConfig, s: LinkState, outcome: WriteOutcome)
    requires cfg.Valid() && Reachable(cfg, s) && s.io.Writing?
    ensures Offered(s, AfterTransmit(cfg, s, outcome), s.io.f.frame, outcome)
    ensures AfterTransmit(cfg, s, outcome).immediate == s.immediate
  {
    ReachableInv(cfg, s);
    EncodedCounter(cfg, s.io.f);
  }

  // In every reachable state the retry frame is the next to count.
  lemma RetryIsNext(cfg: AdapterConfig, s: LinkState)
    requires cfg.Valid() && Reachable(cfg, s) && s.retry.Some?
    ensures FrameCounter(s.retry.value.frame) == s.command.nextCounter
    ensures !s.io.Confirming? ==> s.command.nextCounter == |s.bus| % cfg.codec.modulo
  {
    ReachableInv(cfg, s);
    assert CountersInStep(cfg, s);
    EncodedCounter(cfg, s.retry.value);
  }

  // So a loop that ran never holds a frame for a retry that the success handler
  // would refuse.
  lemma RetryIsConfirmable(t: Transport)
    requires t.Valid() && t.retryFrame.Some?
    ensures ConfirmRegion(t.cfg, t.adapter.Command(), t.retryFrame.value).Some?
    ensures FrameCounter(t.retryFrame.value) == |t.link.bus| % t.cfg.codec.modulo
  {
    RetryIsNext(t.cfg, t.link);
  }
}
