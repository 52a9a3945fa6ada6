// The adapter's view of who publishes the canonical command
// (control_link_adapters/src/canonical_endpoint_tracker.cpp).
module CanonicalEndpointTracker {
  import opened Common
  import opened Messages
  import opened GraphEndpoints
  import G = CanonicalInputGuard
  import D = Debouncer

  const UNSTABLE := G.EndpointSnapshot(G.Unstable, "", None)

  function Assess(publishers: seq<EndpointInfo>, expectedType: string, rmw: string): G.EndpointSnapshot {
    if publishers == [] then G.EndpointSnapshot(G.Unavailable, "", None)
    else if |publishers| != 1 then G.EndpointSnapshot(G.Ambiguous, "", None)
    else
      var p := publishers[0];
      if !p.kind.Publisher? || p.topicType != expectedType then G.EndpointSnapshot(G.Unavailable, "", None)
      else G.EndpointSnapshot(G.Confirmed, NodeFqn(p), Some(PublisherKey(rmw, p.gid)))
  }

  predicate SameSnapshot(left: G.EndpointSnapshot, right: G.EndpointSnapshot) {
    left.state == right.state &&
    (left.state.Confirmed? ==> left.nodeFqn == right.nodeFqn && left.publisher == right.publisher)
  }

  // Only confirmed snapshots carry an identity.
  predicate Bare(s: G.EndpointSnapshot) {
    if s.state.Confirmed? then s.publisher.Some? else s.nodeFqn == "" && s.publisher.None?
  }

  // Among assessments, sameness is equality.
  lemma SameIsEqual(left: G.EndpointSnapshot, right: G.EndpointSnapshot)
    requires Bare(left) && Bare(right)
    ensures SameSnapshot(left, right) <==> left == right
  {
  }

  class Tracker {
    const expectedType: string
    const rmwImplementation: string
    const windowNs: nat
    var stable: Option<G.EndpointSnapshot>
    var candidate: Option<G.EndpointSnapshot>
    var candidateSince: Option<int>
    var lastObservedAt: Option<int>
    // Every assessment made so far.
    ghost var history: seq<D.Sighting<G.EndpointSnapshot>>

    ghost function Abstract(): D.State<G.EndpointSnapshot>
      reads this
    {
      D.State(stable,
              if candidate.Some? && candidateSince.Some? then Some(D.Candidate(candidate.value, candidateSince.value))
              else None,
              lastObservedAt)
    }

    // What the fields hold is an assessment, and a candidate has a start.
    ghost predicate Held()
      reads this
    {
      && (candidate.Some? <==> candidateSince.Some?)
      && (stable.Some? ==> Bare(stable.value)) && (candidate.Some? ==> Bare(candidate.value))
    }

    ghost predicate Valid()
      reads this
    {
      && windowNs > 0 && Held()
      && D.TimeOrdered(history)
      && Abstract() == D.After(windowNs, history)
    }

    constructor (expectedType: string, rmwImplementation: string, windowMs: nat)
      requires expectedType != "" && rmwImplementation != "" && windowMs > 0
      ensures Valid() && history == [] && windowNs == windowMs * NS_PER_MILLISECOND
    {
      this.expectedType, this.rmwImplementation := expectedType, rmwImplementation;
      windowNs := windowMs * NS_PER_MILLISECOND;
      stable, candidate, candidateSince, lastObservedAt := None, None, None, None;
      history := [];
    }

    // None stands for the exception on a time that went backwards.
    method Observe(publishers: seq<EndpointInfo>, at: int) returns (r: Option<G.EndpointSnapshot>)
      requires Valid()
      modifies this
      ensures Valid()
      ensures r.Some? <==> old(history) == [] || old(history)[|old(history)| - 1].at <= at
      ensures history ==
              if r.Some? then old(history) + [D.Sighting(Assess(publishers, expectedType, rmwImplementation), at)]
              else old(history)
      ensures r.Some? ==> r.value == Current()
    {
      D.InTimeMeans(windowNs, history, at);
      if lastObservedAt.Some? && at < lastObservedAt.value {
        return None;
      }
      var observation := Assess(publishers, expectedType, rmwImplementation);
      D.OneMore(windowNs, history, D.Sighting(observation, at));
      history := history + [D.Sighting(observation, at)];
      var current := Settle(observation, at);
      return Some(current);
    }

    // The step of the debouncer that an assessment makes.
    method Settle(observation: G.EndpointSnapshot, at: int) returns (current: G.EndpointSnapshot)
      requires Bare(observation) && Held()
      modifies `stable, `candidate, `candidateSince, `lastObservedAt
      ensures Held() && Abstract() == D.Observe(windowNs, old(Abstract()), observation, at).0
      ensures current == Current()
    {
      lastObservedAt := Some(at);
      if stable.Some? && SameSnapshot(observation, stable.value) {
        candidate, candidateSince := None, None;
        return stable.value;
      }
      if candidate.None? || !SameSnapshot(observation, candidate.value) {
        candidate, candidateSince := Some(observation), Some(at);
        return UNSTABLE;
      }
      if at - candidateSince.value < windowNs {
        return UNSTABLE;
      }
      stable := candidate;
      candidate, candidateSince := None, None;
      return stable.value;
    }

    function Current(): G.EndpointSnapshot
      reads this
    {
      if candidate.Some? then UNSTABLE
      else if stable.Some? then stable.value
      else UNSTABLE
    }
  }

  // What `current` reports after a history, from the debounced state alone.
  ghost function CurrentFor(windowNs: nat, h: seq<D.Sighting<G.EndpointSnapshot>>): G.EndpointSnapshot {
    var s := D.After(windowNs, h);
    if s.candidate.Some? then UNSTABLE else if s.stable.Some? then s.stable.value else UNSTABLE
  }

  // The newest assessment was also seen in the latest block that spans the
  // window.
  ghost predicate SeenAndStable(windowNs: nat, h: seq<D.Sighting<G.EndpointSnapshot>>) {
    h != [] && exists j: nat :: D.LatestQualified(windowNs, h, j) && h[j].key == h[|h| - 1].key
  }

  lemma CurrentDecided(windowNs: nat, h: seq<D.Sighting<G.EndpointSnapshot>>)
    requires windowNs > 0 && D.TimeOrdered(h)
    ensures CurrentFor(windowNs, h) == if SeenAndStable(windowNs, h) then h[|h| - 1].key else UNSTABLE
  {
    D.StableValueDecided(windowNs, h);
    if SeenAndStable(windowNs, h) {
      var k: nat :| D.LatestQualified(windowNs, h, k) && h[k].key == h[|h| - 1].key;
      assert D.After(windowNs, h).stable.Some?;
      var j: nat :| D.LatestQualified(windowNs, h, j) && h[j].key == D.After(windowNs, h).stable.value;
      assert j == k;
    }
  }

  // The tracker answers with the newest assessment while that is stable, and
  // with unstable otherwise; so a confirmed publisher is one that the last poll
  // saw alone and that was seen alone over the window.
  lemma TrackerReports(t: Tracker)
    requires t.Valid()
    ensures t.Current() ==
            if SeenAndStable(t.windowNs, t.history) then t.history[|t.history| - 1].key else UNSTABLE
    ensures G.Coherent(t.Current())
  {
    CurrentDecided(t.windowNs, t.history);
  }
}
