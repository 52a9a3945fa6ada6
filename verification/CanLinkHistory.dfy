// What the log of a run says about the next frame, read off the events alone,
// without the fields of the adapter or of the transport.
module CanLinkHistory {
  import opened Common
  import opened Messages
  import opened CanCodec
  import opened SocketCanAdapter
  import opened CanLink
  import G = CanonicalInputGuard

  // The position of the command in force: the last accepted one, unless a
  // rejection or a change of the endpoint came after it.
  function HeldBy(log: seq<Event>): (r: Option<nat>)
    ensures r.Some? ==> r.value < |log| && log[r.value].Accepted?
    decreases |log|
  {
    if log == [] then None
    else
      var n := |log| - 1;
      if log[n].Accepted? then Some(n)
      else if IsClear(log[n]) then None
      else HeldBy(log[..n])
  }

  // A HOLD was demanded and no frame was built since.
  predicate Forced(log: seq<Event>)
    decreases |log|
  {
    log != [] &&
    var n := |log| - 1;
    log[n].HoldForced? || (!log[n].Built? && Forced(log[..n]))
  }

  function WrittenCount(log: seq<Event>): nat
    decreases |log|
  {
    if log == [] then 0
    else
      var n := |log| - 1;
      WrittenCount(log[..n]) + (if log[n].Written? then 1 else 0)
  }

  // The position just after the last exchange that found the flag raised.
  function LastTaken(log: seq<Event>): (r: nat)
    ensures r <= |log|
    decreases |log|
  {
    if log == [] then 0
    else
      var n := |log| - 1;
      if log[n].FlagTaken? then n + 1 else LastTaken(log[..n])
  }

  // The frame a history calls for at time `at`.
  function SignalsFor(cfg: AdapterConfig, log: seq<Event>, at: int): CanControlSignals
    requires cfg.Valid()
  {
    var counter := WrittenCount(log) % cfg.codec.modulo;
    var held := HeldBy(log);
    if && !Forced(log) && held.Some?
       && log[held.value].command.mode == MODE_NORMAL
       && at - log[held.value].at <= cfg.watchdogTimeoutNs then
      var command := log[held.value].command;
      CanControlSignals(Active, command.linearVelocity, command.angularVelocity, counter)
    else
      CanControlSignals(CanControlMode.Hold, Finite(0.0), Finite(0.0), counter)
  }

  // What an event owes to the events before it.
  predicate SoundAt(cfg: AdapterConfig, before: seq<Event>, e: Event)
    requires cfg.Valid()
  {
    match e
    case Accepted(command, _) => G.WellFormed(command, cfg.rules)
    case Built(signals, at) =>
      && signals == SignalsFor(cfg, before, at)
      && (HeldBy(before).Some? ==> before[HeldBy(before).value].at <= at)
    case Written(signals, built) =>
      && built < |before| && before[built].Built? && before[built].signals == signals
      && LastTaken(before) <= built
    case _ => true
  }

  ghost predicate Sound(cfg: AdapterConfig, log: seq<Event>)
    requires cfg.Valid()
  {
    forall k :: 0 <= k < |log| ==> SoundAt(cfg, log[..k], log[k])
  }

  lemma SoundAppend(cfg: AdapterConfig, log: seq<Event>, e: Event)
    requires cfg.Valid() && Sound(cfg, log) && SoundAt(cfg, log, e)
    ensures Sound(cfg, log + [e])
  {
    forall k | 0 <= k < |log| + 1
      ensures SoundAt(cfg, (log + [e])[..k], (log + [e])[k])
    {
      if k < |log| {
        assert (log + [e])[..k] == log[..k];
      } else {
        assert (log + [e])[..k] == log;
      }
    }
  }

  lemma Appended(log: seq<Event>, e: Event)
    ensures HeldBy(log + [e]) == if e.Accepted? then Some(|log|) else if IsClear(e) then None else HeldBy(log)
    ensures Forced(log + [e]) <==> e.HoldForced? || (!e.Built? && Forced(log))
    ensures WrittenCount(log + [e]) == WrittenCount(log) + (if e.Written? then 1 else 0)
    ensures LastTaken(log + [e]) == if e.FlagTaken? then |log| + 1 else LastTaken(log)
  {
    assert (log + [e])[..|log|] == log;
  }

  // ------------------------------------- reading the summaries back

  lemma {:induction false} HeldUntilSettled(log: seq<Event>)
    ensures HeldBy(log).Some? ==>
              forall k :: HeldBy(log).value < k < |log| ==> !log[k].Accepted? && !IsClear(log[k])
    decreases |log|
  {
    if log != [] {
      HeldUntilSettled(log[..|log| - 1]);
    }
  }

  lemma {:induction false} ClearedIsNotHeld(log: seq<Event>, i: nat)
    requires i < |log| && IsClear(log[i])
    requires forall k :: i < k < |log| ==> !log[k].Accepted?
    ensures HeldBy(log).None?
    decreases |log|
  {
    if i < |log| - 1 {
      ClearedIsNotHeld(log[..|log| - 1], i);
    }
  }

  lemma {:induction false} ForcedUntilBuilt(log: seq<Event>, i: nat)
    requires i < |log| && log[i].HoldForced?
    requires forall k :: i < k < |log| ==> !log[k].Built?
    ensures Forced(log)
    decreases |log|
  {
    if i < |log| - 1 {
      ForcedUntilBuilt(log[..|log| - 1], i);
    }
  }

  lemma {:induction false} TakenBefore(log: seq<Event>, i: nat)
    requires i < |log| && log[i].FlagTaken?
    ensures i < LastTaken(log)
    decreases |log|
  {
    if i < |log| - 1 {
      TakenBefore(log[..|log| - 1], i);
    }
  }
}
