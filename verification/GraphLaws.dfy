// What the endpoint monitors make of a graph query, endpoint by endpoint
// (canonical_endpoint_tracker.cpp, controller_endpoint_monitor.cpp,
// critical_endpoint_monitor.cpp).
module GraphLaws {
  import opened Common
  import opened Messages
  import opened GraphEndpoints
  import D = Debouncer
  import T = CanonicalEndpointTracker
  import C = ControllerEndpointMonitor
  import E = CriticalEndpointMonitor

  // The namespace with one slash at its end, and the name.
  lemma FqnIs(e: EndpointInfo)
    ensures var n := e.nodeNamespace;
            NodeFqn(e) == (if n != "" && n[|n| - 1] == '/' then n else n + "/") + e.nodeName
  {
    assert "/" == [] + "/";
  }

  // --------------------------------------------------- canonical publisher

  // A publisher is confirmed exactly when it is the only one and of the
  // expected type, with its name and its GID; several are ambiguous.
  lemma AssessedExactly(publishers: seq<EndpointInfo>, expectedType: string, rmw: string)
    ensures var s := T.Assess(publishers, expectedType, rmw);
            && (s.state.Ambiguous? <==> |publishers| > 1)
            && (s.state.Confirmed? <==>
                  |publishers| == 1 && publishers[0].kind.Publisher? && publishers[0].topicType == expectedType)
            && !s.state.Unstable?
            && (s.state.Confirmed? ==>
                  s.nodeFqn == NodeFqn(publishers[0]) && s.publisher == Some(PublisherKey(rmw, publishers[0].gid)))
            && (!s.state.Confirmed? ==> s.nodeFqn == "" && s.publisher.None?)
  {
  }

  // ------------------------------------------------------------ controller

  predicate Named(x: C.Expected, e: EndpointInfo) {
    e.kind.Subscription? && NodeFqn(e) == x.nodeFqn
  }

  // The subscription that can execute the commands.
  predicate Executes(x: C.Expected, e: EndpointInfo) {
    Named(x, e) && e.topicType == x.topicType && e.qos.ddsCompatible
  }

  ghost predicate OnlyAt(x: C.Expected, subscriptions: seq<EndpointInfo>, i: nat) {
    && i < |subscriptions| && Executes(x, subscriptions[i])
    && forall j :: 0 <= j < |subscriptions| && Executes(x, subscriptions[j]) ==> j == i
  }

  ghost predicate NoneExecutes(x: C.Expected, subscriptions: seq<EndpointInfo>) {
    forall j :: 0 <= j < |subscriptions| ==> !Executes(x, subscriptions[j])
  }

  lemma {:induction false} NoMatch(x: C.Expected, subscriptions: seq<EndpointInfo>)
    ensures C.MatchesIn(x, subscriptions) == [] <==> NoneExecutes(x, subscriptions)
  {
    if subscriptions != [] {
      NoMatch(x, subscriptions[..|subscriptions| - 1]);
    }
  }

  lemma {:induction false} OnlyMatch(x: C.Expected, subscriptions: seq<EndpointInfo>, i: nat)
    requires OnlyAt(x, subscriptions, i)
    ensures C.MatchesIn(x, subscriptions) == [subscriptions[i]]
  {
    var n := |subscriptions| - 1;
    if i < n {
      assert !Executes(x, subscriptions[n]);
      OnlyMatch(x, subscriptions[..n], i);
    } else {
      NoMatch(x, subscriptions[..n]);
    }
  }

  lemma {:induction false} TwoMatch(x: C.Expected, subscriptions: seq<EndpointInfo>, i: nat, j: nat)
    requires i < j < |subscriptions| && Executes(x, subscriptions[i]) && Executes(x, subscriptions[j])
    ensures |C.MatchesIn(x, subscriptions)| > 1
  {
    var n := |subscriptions| - 1;
    if j < n {
      TwoMatch(x, subscriptions[..n], i, j);
    } else {
      NoMatch(x, subscriptions[..n]);
      assert Executes(x, subscriptions[..n][i]);
    }
  }

  lemma MatchesCounted(x: C.Expected, subscriptions: seq<EndpointInfo>) returns (i: nat)
    requires !NoneExecutes(x, subscriptions)
    ensures |C.MatchesIn(x, subscriptions)| == 1 ==>
              OnlyAt(x, subscriptions, i) && C.MatchesIn(x, subscriptions) == [subscriptions[i]]
    ensures |C.MatchesIn(x, subscriptions)| != 1 ==> !exists k: nat :: OnlyAt(x, subscriptions, k)
  {
    i :| i < |subscriptions| && Executes(x, subscriptions[i]);
    if k: nat :| OnlyAt(x, subscriptions, k) {
      i := k;
      OnlyMatch(x, subscriptions, k);
    } else {
      assert !OnlyAt(x, subscriptions, i);
      var j: nat :| j < |subscriptions| && Executes(x, subscriptions[j]) && j != i;
      TwoMatch(x, subscriptions, if i < j then i else j, if i < j then j else i);
    }
  }

  // A poll says alone for the one subscription that executes the commands,
  // several for more than one, and otherwise whether somebody has the name.
  lemma PolledExactly(x: C.Expected, subscriptions: seq<EndpointInfo>)
    ensures match C.PollOf(x, subscriptions)
            case Alone(gid) => exists i: nat :: OnlyAt(x, subscriptions, i) && subscriptions[i].gid == gid
            case Several => !NoneExecutes(x, subscriptions) && !exists i: nat :: OnlyAt(x, subscriptions, i)
            case Nobody(present) =>
              NoneExecutes(x, subscriptions) && (present <==> exists e :: e in subscriptions && Named(x, e))
  {
    NoMatch(x, subscriptions);
    if !NoneExecutes(x, subscriptions) {
      var i := MatchesCounted(x, subscriptions);
    }
    if exists e :: e in subscriptions && C.PlaysRole(x, e) {
      var e :| e in subscriptions && C.PlaysRole(x, e);
      assert Named(x, e);
    }
    if exists e :: e in subscriptions && Named(x, e) {
      var e :| e in subscriptions && Named(x, e);
      assert C.PlaysRole(x, e);
    }
  }

  // ----------------------------------------------------- critical endpoints

  lemma {:induction false} MatchingAre(endpoints: seq<EndpointInfo>, expected: E.CriticalEndpoint, e: EndpointInfo)
    ensures multiset(E.Matching(endpoints, expected))[e] ==
            if e.kind == expected.kind && e.topicType == expected.topicType && NodeFqn(e) == expected.remoteNodeFqn
            then multiset(endpoints)[e] else 0
  {
    if endpoints != [] {
      var n := |endpoints| - 1;
      MatchingAre(endpoints[..n], expected, e);
      assert endpoints == endpoints[..n] + [endpoints[n]];
    }
  }

  // Two assessments are the same for the debouncer exactly when all the
  // verdicts, the number of endpoints and their GIDs are; the order and the
  // other endpoints do not count, and neither changes the health.
  lemma SameExactly(left: E.Assessment, right: E.Assessment)
    ensures E.SameState(left, right) <==>
            && left.exactQosRequired == right.exactQosRequired
            && left.identity.roleCountHealthy == right.identity.roleCountHealthy
            && left.identity.additionalHealthy == right.identity.additionalHealthy
            && left.identity.matchingRoleCount == right.identity.matchingRoleCount
            && left.qos.ddsCompatible == right.qos.ddsCompatible && left.qos.policyMatch == right.qos.policyMatch
            && left.qos.complete == right.qos.complete
            && multiset(E.Gids(left.identity.matching)) == multiset(E.Gids(right.identity.matching))
    ensures E.SameState(left, right) ==> (E.Healthy(left) <==> E.Healthy(right))
  {
    E.SortedComparisonIsMultiset(left.identity.matching, right.identity.matching);
  }

  // ------------------------------------------------------------- debouncing

  // What a change says about the stable value before and after it.
  lemma ChangeTells<K>(window: nat, h: seq<D.Sighting<K>>, next: D.Sighting<K>)
    ensures var before, after := D.After(window, h).stable, D.After(window, h + [next]).stable;
            match D.Observe(window, D.After(window, h), next.key, next.at).1
            case Unchanged => before == Some(next.key) == after
            case Initialized => before.None? && after == Some(next.key)
            case Changed => before.Some? && before != Some(next.key) && after == Some(next.key)
            case Pending => after == before && before != Some(next.key)
  {
    assert (h + [next])[..|h|] == h;
  }
}
