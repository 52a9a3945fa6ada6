// The gateway as a reconfiguration sees it: lifecycle, parameters and reported
// hash, changed by fallible remote calls
// (control_link_bringup/tools/reconfigure_gateway.cpp, RosGatewayReconfigurationBackend).
module ReconfigurationBackend {
  import opened Common

  // The primary lifecycle states, and every other id the service may report.
  datatype Lifecycle = Unconfigured | Inactive | Active | Other(id: nat)

  datatype Parameters = Parameters(profilePath: string, configRoot: string, tracePath: string)

  // `reported` is the decision hash in the gateway's diagnostics.
  datatype Gateway = Gateway(lifecycle: Lifecycle, parameters: Parameters, reported: string)

  datatype Step =
    | Precheck
    | DeactivateCurrent | CleanupCurrent | SetCandidateConfig | ConfigureCandidate | VerifyCandidate
    | ActivateCandidate | CommitCandidate
    | CleanupCandidate | RestorePreviousConfig | ConfigurePrevious | VerifyPrevious | ActivatePrevious

  datatype Call = ReadHash | Perform(step: Step)

  // What the world answers to one backend call: a failure that leaves the
  // gateway in any state, or no failure; `reported` is what a newly configured
  // gateway says.
  datatype Reply = Reply(fails: bool, after: Gateway, reported: string)

  datatype Target = Target(
    previous: Parameters,
    candidate: Parameters,
    rollbackTracePath: string,
    previousHash: string,
    candidateHash: string)

  // `count` numbers the calls, `calls` records them.
  datatype World = World(gateway: Gateway, count: nat, calls: seq<Call>)

  function Restored(t: Target): Parameters {
    t.previous.(tracePath := t.rollbackTracePath)
  }

  // A lifecycle transition is accepted from one state only.
  function Moved(g: Gateway, required: Lifecycle, next: Lifecycle): (bool, Gateway) {
    if g.lifecycle == required then (true, g.(lifecycle := next)) else (false, g)
  }

  // The effect of an operation that does not fail remotely.
  function Effect(t: Target, g: Gateway, step: Step, reported: string): (bool, Gateway) {
    match step
    case Precheck => (true, g)
    case DeactivateCurrent => Moved(g, Active, Inactive)
    case CleanupCurrent => Moved(g, Inactive, Unconfigured)
    case SetCandidateConfig => (true, g.(parameters := t.candidate))
    case ConfigureCandidate => Moved(g.(reported := if g.lifecycle.Unconfigured? then reported else g.reported), Unconfigured, Inactive)
    case VerifyCandidate => (true, g.(reported := t.candidateHash))
    case ActivateCandidate => Moved(g, Inactive, Active)
    case CommitCandidate => (true, g)
    case CleanupCandidate =>
      if g.lifecycle.Other? then (false, g) else (true, g.(lifecycle := Unconfigured))
    case RestorePreviousConfig => (true, g.(parameters := Restored(t)))
    case ConfigurePrevious => Moved(g.(reported := if g.lifecycle.Unconfigured? then reported else g.reported), Unconfigured, Inactive)
    case VerifyPrevious => (true, g.(reported := t.previousHash))
    case ActivatePrevious => Moved(g, Inactive, Active)
  }

  function Answered(w: World, call: Call): World {
    w.(count := w.count + 1, calls := w.calls + [call])
  }

  // One backend operation; false stands for an exception.
  function Operate(t: Target, replies: nat -> Reply, w: World, step: Step): (bool, World) {
    var reply := replies(w.count);
    var next := Answered(w, Perform(step));
    if reply.fails then (false, next.(gateway := reply.after))
    else
      var (ok, g) := Effect(t, w.gateway, step, reply.reported);
      (ok, next.(gateway := g))
  }

  // None stands for an exception.
  function CurrentHash(replies: nat -> Reply, w: World): (Option<string>, World) {
    var reply := replies(w.count);
    var next := Answered(w, ReadHash);
    if reply.fails then (None, next.(gateway := reply.after)) else (Some(w.gateway.reported), next)
  }

  class Backend {
    const target: Target
    const replies: nat -> Reply
    var lifecycle: Lifecycle
    var parameters: Parameters
    var reported: string
    var count: nat
    var calls: seq<Call>

    ghost function State(): World
      reads this
    {
      World(Gateway(lifecycle, parameters, reported), count, calls)
    }

    constructor (target: Target, replies: nat -> Reply, gateway: Gateway)
      ensures this.target == target && this.replies == replies && State() == World(gateway, 0, [])
    {
      this.target, this.replies := target, replies;
      lifecycle, parameters, reported := gateway.lifecycle, gateway.parameters, gateway.reported;
      count, calls := 0, [];
    }

    // Takes the world's answer to the next call; a failure has happened already.
    method Await(call: Call) returns (reply: Reply)
      modifies this
      ensures reply == replies(old(count))
      ensures State() == Answered(old(State()), call).(
                gateway := if reply.fails then reply.after else old(State()).gateway)
    {
      reply := replies(count);
      count, calls := count + 1, calls + [call];
      if reply.fails {
        lifecycle, parameters, reported := reply.after.lifecycle, reply.after.parameters, reply.after.reported;
      }
    }

    method TransitionTo(required: Lifecycle, next: Lifecycle) returns (ok: bool)
      modifies `lifecycle
      ensures (ok, State().gateway) == Moved(old(State()).gateway, required, next)
    {
      if lifecycle != required {
        return false;
      }
      lifecycle := next;
      return true;
    }

    method CurrentDecisionConfigHash() returns (hash: Option<string>)
      modifies this
      ensures (hash, State()) == CurrentHash(replies, old(State()))
    {
      var reply := Await(ReadHash);
      return if reply.fails then None else Some(reported);
    }

    method DeactivateCurrentGateway() returns (ok: bool)
      modifies this
      ensures (ok, State()) == Operate(target, replies, old(State()), DeactivateCurrent)
    {
      var reply := Await(Perform(DeactivateCurrent));
      if reply.fails {
        return false;
      }
      ok := TransitionTo(Active, Inactive);
    }

    method CleanupCurrentGateway() returns (ok: bool)
      modifies this
      ensures (ok, State()) == Operate(target, replies, old(State()), CleanupCurrent)
    {
      var reply := Await(Perform(CleanupCurrent));
      if reply.fails {
        return false;
      }
      ok := TransitionTo(Inactive, Unconfigured);
    }

    method SetCandidate() returns (ok: bool)
      modifies this
      ensures (ok, State()) == Operate(target, replies, old(State()), SetCandidateConfig)
    {
      var reply := Await(Perform(SetCandidateConfig));
      if reply.fails {
        return false;
      }
      parameters := target.candidate;
      return true;
    }

    method Configure(step: Step) returns (ok: bool)
      requires step.ConfigureCandidate? || step.ConfigurePrevious?
      modifies this
      ensures (ok, State()) == Operate(target, replies, old(State()), step)
    {
      var reply := Await(Perform(step));
      if reply.fails {
        return false;
      }
      if lifecycle.Unconfigured? {
        reported := reply.reported;
      }
      ok := TransitionTo(Unconfigured, Inactive);
    }

    // Returns only once the diagnostics show the expected hash.
    method Verify(step: Step) returns (ok: bool)
      requires step.VerifyCandidate? || step.VerifyPrevious?
      modifies this
      ensures (ok, State()) == Operate(target, replies, old(State()), step)
    {
      var reply := Await(Perform(step));
      if reply.fails {
        return false;
      }
      reported := if step.VerifyCandidate? then target.candidateHash else target.previousHash;
      return true;
    }

    method Activate(step: Step) returns (ok: bool)
      requires step.ActivateCandidate? || step.ActivatePrevious?
      modifies this
      ensures (ok, State()) == Operate(target, replies, old(State()), step)
    {
      var reply := Await(Perform(step));
      if reply.fails {
        return false;
      }
      ok := TransitionTo(Inactive, Active);
    }

    method Commit() returns (ok: bool)
      modifies this
      ensures (ok, State()) == Operate(target, replies, old(State()), CommitCandidate)
    {
      var reply := Await(Perform(CommitCandidate));
      return !reply.fails;
    }

    // Takes down whatever part of the candidate came up.
    method CleanupPartialCandidate() returns (ok: bool)
      modifies this
      ensures (ok, State()) == Operate(target, replies, old(State()), CleanupCandidate)
    {
      var reply := Await(Perform(CleanupCandidate));
      if reply.fails {
        return false;
      }
      if lifecycle.Active? {
        ok := TransitionTo(Active, Inactive);
      }
      if lifecycle.Inactive? {
        ok := TransitionTo(Inactive, Unconfigured);
        return;
      }
      return lifecycle.Unconfigured?;
    }

    method Restore() returns (ok: bool)
      modifies this
      ensures (ok, State()) == Operate(target, replies, old(State()), RestorePreviousConfig)
    {
      var reply := Await(Perform(RestorePreviousConfig));
      if reply.fails {
        return false;
      }
      parameters := target.previous.(tracePath := target.rollbackTracePath);
      return true;
    }
  }
}
