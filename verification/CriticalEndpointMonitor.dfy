// The gateway's assessment of a critical endpoint and its debouncing
// (control_link_gateway/src/critical_endpoint_monitor.cpp).
module CriticalEndpointMonitor {
  import opened Common
  import opened GraphEndpoints
  import opened Sorting
  import D = Debouncer

  datatype CriticalEndpoint = CriticalEndpoint(
    kind: EndpointKind,
    topicType: string,
    remoteNodeFqn: string,
    minCount: nat,
    maxCount: Option<nat>,
    allowAdditional: bool)

  datatype IdentityAssessment = IdentityAssessment(
    discoveredCount: nat,
    matchingRoleCount: nat,
    additionalCount: nat,
    matching: seq<EndpointInfo>,
    roleCountHealthy: bool,
    additionalHealthy: bool)

  datatype QosAssessment = QosAssessment(
    reports: seq<QosReport>,
    ddsCompatible: bool,
    policyMatch: bool,
    complete: bool)

  datatype Assessment = Assessment(identity: IdentityAssessment, qos: QosAssessment, exactQosRequired: bool)

  predicate Healthy(a: Assessment) {
    && a.identity.roleCountHealthy && a.identity.additionalHealthy
    && a.qos.ddsCompatible && (a.exactQosRequired ==> a.qos.policyMatch)
  }

  predicate MatchesRole(e: EndpointInfo, expected: CriticalEndpoint) {
    e.kind == expected.kind && e.topicType == expected.topicType && NodeFqn(e) == expected.remoteNodeFqn
  }

  function Matching(endpoints: seq<EndpointInfo>, expected: CriticalEndpoint): (r: seq<EndpointInfo>)
    ensures |r| <= |endpoints|
  {
    if endpoints == [] then []
    else
      var n := |endpoints| - 1;
      Matching(endpoints[..n], expected) + (if MatchesRole(endpoints[n], expected) then [endpoints[n]] else [])
  }

  method AssessIdentity(endpoints: seq<EndpointInfo>, expected: CriticalEndpoint) returns (a: IdentityAssessment)
    ensures a.matching == Matching(endpoints, expected) && a.matchingRoleCount == |a.matching|
    ensures a.discoveredCount == |endpoints| == a.matchingRoleCount + a.additionalCount
    ensures a.roleCountHealthy <==>
              expected.minCount <= a.matchingRoleCount &&
              (expected.maxCount.Some? ==> a.matchingRoleCount <= expected.maxCount.value)
    ensures a.additionalHealthy <==> expected.allowAdditional || a.matchingRoleCount == |endpoints|
  {
    var matching: seq<EndpointInfo> := [];
    var additional := 0;
    for i := 0 to |endpoints|
      invariant matching == Matching(endpoints[..i], expected) && |matching| + additional == i
    {
      assert endpoints[..i + 1][..i] == endpoints[..i];
      if MatchesRole(endpoints[i], expected) {
        matching := matching + [endpoints[i]];
      } else {
        additional := additional + 1;
      }
    }
    assert endpoints[..|endpoints|] == endpoints;
    a := IdentityAssessment(
      |endpoints|, |matching|, additional, matching,
      expected.minCount <= |matching| && (expected.maxCount.None? || |matching| <= expected.maxCount.value),
      expected.allowAdditional || additional == 0);
  }

  // An endpoint that nobody plays has no QoS verdict.
  method AssessQos(identity: IdentityAssessment) returns (a: QosAssessment)
    ensures a.reports == seq(|identity.matching|, i requires 0 <= i < |identity.matching| => identity.matching[i].qos)
    ensures a.ddsCompatible <==> identity.matching != [] && forall e :: e in identity.matching ==> e.qos.ddsCompatible
    ensures a.policyMatch <==> identity.matching != [] && forall e :: e in identity.matching ==> e.qos.policiesMatch
    ensures a.complete <==> identity.matching != [] && forall e :: e in identity.matching ==> e.qos.complete
  {
    if identity.matching == [] {
      return QosAssessment([], false, false, false);
    }
    var reports: seq<QosReport> := [];
    var dds, policy, complete := true, true, true;
    for i := 0 to |identity.matching|
      invariant |reports| == i && forall k :: 0 <= k < i ==> reports[k] == identity.matching[k].qos
      invariant dds <==> forall k :: 0 <= k < i ==> identity.matching[k].qos.ddsCompatible
      invariant policy <==> forall k :: 0 <= k < i ==> identity.matching[k].qos.policiesMatch
      invariant complete <==> forall k :: 0 <= k < i ==> identity.matching[k].qos.complete
    {
      var report := identity.matching[i].qos;
      dds, policy, complete := dds && report.ddsCompatible, policy && report.policiesMatch, complete && report.complete;
      reports := reports + [report];
    }
    a := QosAssessment(reports, dds, policy, complete);
  }

  // ---------------------------------------------- sameness of assessments

  function GidKey(gid: seq<uint8>): (r: seq<int>)
    ensures r == gid
  {
    gid
  }

  function Gids(endpoints: seq<EndpointInfo>): seq<seq<uint8>> {
    seq(|endpoints|, i requires 0 <= i < |endpoints| => endpoints[i].gid)
  }

  predicate SameGenerationSet(left: seq<EndpointInfo>, right: seq<EndpointInfo>) {
    |left| == |right| && Sort(GidKey, Gids(left)) == Sort(GidKey, Gids(right))
  }

  predicate SameState(left: Assessment, right: Assessment) {
    && left.exactQosRequired == right.exactQosRequired
    && left.identity.roleCountHealthy == right.identity.roleCountHealthy
    && left.identity.additionalHealthy == right.identity.additionalHealthy
    && left.identity.matchingRoleCount == right.identity.matchingRoleCount
    && left.qos.ddsCompatible == right.qos.ddsCompatible
    && left.qos.policyMatch == right.qos.policyMatch
    && left.qos.complete == right.qos.complete
    && SameGenerationSet(left.identity.matching, right.identity.matching)
  }

  // The part of an assessment that the gateway's decisions depend on.
  datatype ControlKey = ControlKey(
    exactQosRequired: bool,
    roleCountHealthy: bool,
    additionalHealthy: bool,
    matchingRoleCount: nat,
    ddsCompatible: bool,
    policyMatch: bool,
    complete: bool,
    generations: multiset<seq<uint8>>)

  function KeyOf(a: Assessment): ControlKey {
    ControlKey(a.exactQosRequired, a.identity.roleCountHealthy, a.identity.additionalHealthy,
               a.identity.matchingRoleCount, a.qos.ddsCompatible, a.qos.policyMatch, a.qos.complete,
               multiset(Gids(a.identity.matching)))
  }

  // Comparing sorted GIDs compares the publishers as a multiset, whatever order
  // the graph lists them in.
  lemma SortedComparisonIsMultiset(left: seq<EndpointInfo>, right: seq<EndpointInfo>)
    ensures SameGenerationSet(left, right) <==> multiset(Gids(left)) == multiset(Gids(right))
  {
    SortCanonical(GidKey, Gids(left), Gids(right));
    if multiset(Gids(left)) == multiset(Gids(right)) {
      assert |multiset(Gids(left))| == |left|;
      assert |multiset(Gids(right))| == |right|;
    }
  }

  // So sameness of assessments is equality of keys: an equivalence.
  lemma SameStateIsSameKey(left: Assessment, right: Assessment)
    ensures SameState(left, right) <==> KeyOf(left) == KeyOf(right)
  {
    SortedComparisonIsMultiset(left.identity.matching, right.identity.matching);
  }

  // ------------------------------------------------------------ debouncing

  class StabilityTracker {
    var stable: Option<Assessment>
    var candidate: Option<Assessment>
    var candidateSince: Option<int>
    var lastObservedAt: Option<int>
    ghost const windowNs: nat
    ghost var history: seq<D.Sighting<ControlKey>>

    ghost function Abstract(): D.State<ControlKey>
      reads this
    {
      D.State(if stable.Some? then Some(KeyOf(stable.value)) else None,
              if candidate.Some? && candidateSince.Some?
              then Some(D.Candidate(KeyOf(candidate.value), candidateSince.value)) else None,
              lastObservedAt)
    }

    ghost predicate Valid()
      reads this
    {
      && windowNs > 0
      && (candidate.Some? <==> candidateSince.Some?)
      && D.TimeOrdered(history)
      && Abstract() == D.After(windowNs, history)
    }

    constructor (windowNs: nat)
      requires windowNs > 0
      ensures Valid() && history == [] && this.windowNs == windowNs
    {
      this.windowNs := windowNs;
      stable, candidate, candidateSince, lastObservedAt := None, None, None, None;
      history := [];
    }

    // None stands for the exception on a time that went backwards. The two
    // logic_errors of the program cannot occur on a valid tracker.
    method Update(observation: Assessment, at: int, window: nat) returns (r: Option<D.Change>)
      requires Valid() && window == windowNs
      modifies this
      ensures Valid()
      ensures r.Some? <==> old(history) == [] || old(history)[|old(history)| - 1].at <= at
      ensures history ==
              if r.Some? then old(history) + [D.Sighting(KeyOf(observation), at)] else old(history)
      ensures r.Some? ==> r.value == D.Observe(windowNs, old(Abstract()), KeyOf(observation), at).1
      // The newest details of an unchanged or newly stable assessment are kept.
      ensures r.Some? && !r.value.Pending? ==> stable == Some(observation)
    {
      D.InTimeMeans(windowNs, history, at);
      if lastObservedAt.Some? && at < lastObservedAt.value {
        return None;
      }
      D.OneMore(windowNs, history, D.Sighting(KeyOf(observation), at));
      history := history + [D.Sighting(KeyOf(observation), at)];
      var change := Settle(observation, at, window);
      return Some(change);
    }

    // The step of the debouncer that an assessment makes.
    method Settle(observation: Assessment, at: int, window: nat) returns (change: D.Change)
      requires window == windowNs && (candidate.Some? <==> candidateSince.Some?)
      modifies `stable, `candidate, `candidateSince, `lastObservedAt
      ensures candidate.Some? <==> candidateSince.Some?
      ensures (Abstract(), change) == D.Observe(windowNs, old(Abstract()), KeyOf(observation), at)
      ensures !change.Pending? ==> stable == Some(observation)
    {
      if stable.Some? {
        SameStateIsSameKey(observation, stable.value);
      }
      if candidate.Some? {
        SameStateIsSameKey(candidate.value, observation);
      }
      lastObservedAt := Some(at);
      if stable.Some? && SameState(observation, stable.value) {
        stable := Some(observation);
        candidate, candidateSince := None, None;
        return D.Unchanged;
      }
      if candidate.None? || !SameState(candidate.value, observation) {
        candidate, candidateSince := Some(observation), Some(at);
        return D.Pending;
      }
      candidate := Some(observation);
      if at - candidateSince.value < window {
        return D.Pending;
      }
      var initializing := stable.None?;
      stable := Some(observation);
      candidate, candidateSince := None, None;
      return if initializing then D.Initialized else D.Changed;
    }
  }

  // The stable verdict is that of the latest block of equivalent assessments
  // that spans the window.
  lemma StableVerdict(t: StabilityTracker)
    requires t.Valid() && t.stable.Some?
    ensures exists j: nat :: D.LatestQualified(t.windowNs, t.history, j) && t.history[j].key == KeyOf(t.stable.value)
  {
    D.StableValueDecided(t.windowNs, t.history);
  }
}
