// The adapter's lease on accepted commands (control_link_adapters/src/local_watchdog.cpp).
module LocalWatchdog {
  import opened Common

  datatype WatchdogState = WaitingForFirstCommand | Healthy | TimedOut

  // None stands for the logic_error on a clock that went backwards.
  function Evaluate(lastValid: Option<int>, now: int, timeoutNs: nat): Option<WatchdogState> {
    if lastValid.None? then Some(WaitingForFirstCommand)
    else if now < lastValid.value then None
    else if now - lastValid.value > timeoutNs then Some(TimedOut)
    else Some(Healthy)
  }

  class Watchdog {
    const timeoutNs: nat
    var lastValidReceivedAt: Option<int>

    constructor (timeoutMs: nat)
      requires timeoutMs > 0
      ensures timeoutNs == timeoutMs * NS_PER_MILLISECOND && lastValidReceivedAt == None
    {
      timeoutNs := timeoutMs * NS_PER_MILLISECOND;
      lastValidReceivedAt := None;
    }

    method Reset()
      modifies this
      ensures lastValidReceivedAt == None
    {
      lastValidReceivedAt := None;
    }

    // False stands for the logic_error; the lease is then left alone.
    method ObserveValidCommand(receivedAt: int) returns (ok: bool)
      modifies this
      ensures ok <==> !(old(lastValidReceivedAt).Some? && receivedAt < old(lastValidReceivedAt).value)
      ensures lastValidReceivedAt == if ok then Some(receivedAt) else old(lastValidReceivedAt)
    {
      if lastValidReceivedAt.Some? && receivedAt < lastValidReceivedAt.value {
        return false;
      }
      lastValidReceivedAt := Some(receivedAt);
      return true;
    }
  }
}
