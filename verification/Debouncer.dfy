// The debouncing that the endpoint monitors share: an observation becomes the
// trusted value after it was seen alone for at least the stable window.
module Debouncer {
  import opened Common

  datatype Sighting<K> = Sighting(key: K, at: int)

  datatype Candidate<K> = Candidate(key: K, since: int)

  datatype State<K> = State(stable: Option<K>, candidate: Option<Candidate<K>>, lastObservedAt: Option<int>)

  datatype Change = Pending | Unchanged | Initialized | Changed

  function Initial<K>(): State<K> {
    State(None, None, None)
  }

  // Both monitors refuse an observation from before the previous one.
  predicate InTime<K>(s: State<K>, at: int) {
    s.lastObservedAt.Some? ==> s.lastObservedAt.value <= at
  }

  function Observe<K(==)>(window: nat, s: State<K>, key: K, at: int): (State<K>, Change) {
    var seen := s.(lastObservedAt := Some(at));
    if s.stable == Some(key) then (seen.(candidate := None), Unchanged)
    else if s.candidate.None? || s.candidate.value.key != key then
      (seen.(candidate := Some(Candidate(key, at))), Pending)
    else if at - s.candidate.value.since < window then (seen, Pending)
    else (seen.(stable := Some(key), candidate := None), if s.stable.None? then Initialized else Changed)
  }

  ghost predicate TimeOrdered<K>(h: seq<Sighting<K>>) {
    forall i, j :: 0 <= i < j < |h| ==> h[i].at <= h[j].at
  }

  function After<K(==)>(window: nat, h: seq<Sighting<K>>): State<K>
    decreases |h|
  {
    if h == [] then Initial()
    else
      var n := |h| - 1;
      Observe(window, After(window, h[..n]), h[n].key, h[n].at).0
  }

  // ------------------------------------------------- read off the history

  // The observations from i to j all saw the same thing, over at least the
  // window.
  ghost predicate Qualifies<K>(window: nat, h: seq<Sighting<K>>, i: nat, j: nat) {
    && i <= j < |h| && h[j].at - h[i].at >= window
    && forall k :: i <= k <= j ==> h[k].key == h[j].key
  }

  ghost predicate QualifiedAt<K>(window: nat, h: seq<Sighting<K>>, j: nat) {
    exists i: nat :: Qualifies(window, h, i, j)
  }

  // j ends the latest block that spans the window.
  ghost predicate LatestQualified<K>(window: nat, h: seq<Sighting<K>>, j: nat) {
    && QualifiedAt(window, h, j)
    && forall k: nat :: j < k < |h| ==> !QualifiedAt(window, h, k)
  }

  // The first observation of the block that ends the history.
  ghost predicate StartsLastBlock<K>(h: seq<Sighting<K>>, i: nat) {
    && i < |h|
    && (forall k :: i <= k < |h| ==> h[k].key == h[|h| - 1].key)
    && (i > 0 ==> h[i - 1].key != h[|h| - 1].key)
  }

  lemma {:induction false} LastBlock<K>(h: seq<Sighting<K>>) returns (i: nat)
    requires h != []
    ensures StartsLastBlock(h, i)
    decreases |h|
  {
    var n := |h| - 1;
    if n == 0 || h[n - 1].key != h[n].key {
      i := n;
    } else {
      i := LastBlock(h[..n]);
    }
  }

  ghost predicate StableIsLatest<K>(window: nat, h: seq<Sighting<K>>, stable: Option<K>) {
    match stable
    case None => forall j: nat :: j < |h| ==> !QualifiedAt(window, h, j)
    case Some(k) => exists j: nat :: LatestQualified(window, h, j) && h[j].key == k
  }

  ghost predicate CandidateIsLastBlock<K>(h: seq<Sighting<K>>, s: State<K>) {
    if h == [] then s.candidate.None?
    else if s.stable == Some(h[|h| - 1].key) then s.candidate.None?
    else
      && s.candidate.Some? && s.candidate.value.key == h[|h| - 1].key
      && exists i: nat :: StartsLastBlock(h, i) && h[i].at == s.candidate.value.since
  }

  lemma QualifiesPrefix<K>(window: nat, h: seq<Sighting<K>>, n: nat, j: nat)
    requires j < n <= |h|
    ensures QualifiedAt(window, h[..n], j) <==> QualifiedAt(window, h, j)
  {
    if QualifiedAt(window, h, j) {
      var i: nat :| Qualifies(window, h, i, j);
      assert Qualifies(window, h[..n], i, j);
    }
    if QualifiedAt(window, h[..n], j) {
      var i: nat :| Qualifies(window, h[..n], i, j);
      assert Qualifies(window, h, i, j);
    }
  }

  // Whether the newest observation qualifies is decided by the first one of its
  // block.
  lemma NewestQualifies<K>(window: nat, h: seq<Sighting<K>>, i: nat)
    requires TimeOrdered(h) && StartsLastBlock(h, i)
    ensures QualifiedAt(window, h, |h| - 1) <==> h[|h| - 1].at - h[i].at >= window
  {
    var n: nat := |h| - 1;
    if h[n].at - h[i].at >= window {
      assert Qualifies(window, h, i, n);
    }
    if QualifiedAt(window, h, n) {
      var k: nat :| Qualifies(window, h, k, n);
      assert i > 0 ==> h[i - 1].key != h[n].key;
      assert k >= i;
    }
  }

  // A block that goes on keeps its first observation.
  lemma BlockGrows<K>(h: seq<Sighting<K>>, i: nat)
    requires |h| > 1 && h[|h| - 2].key == h[|h| - 1].key && StartsLastBlock(h[..|h| - 1], i)
    ensures StartsLastBlock(h, i)
  {
  }

  lemma CandidateKept<K>(window: nat, h: seq<Sighting<K>>)
    requires h != [] && CandidateIsLastBlock(h[..|h| - 1], After(window, h[..|h| - 1]))
    ensures CandidateIsLastBlock(h, After(window, h))
  {
    var n := |h| - 1;
    var before := After(window, h[..n]);
    if before.candidate.Some? && before.candidate.value.key == h[n].key {
      var i: nat :| StartsLastBlock(h[..n], i) && h[..n][i].at == before.candidate.value.since;
      BlockGrows(h, i);
    } else {
      assert n > 0 && before.stable != Some(h[n].key) ==> h[n - 1].key != h[n].key;
      if before.stable != Some(h[n].key) {
        assert StartsLastBlock(h, n);
      }
    }
  }

  lemma LatestKept<K>(window: nat, h: seq<Sighting<K>>, stable: Option<K>)
    requires h != [] && StableIsLatest(window, h[..|h| - 1], stable) && !QualifiedAt(window, h, |h| - 1)
    ensures StableIsLatest(window, h, stable)
  {
    var n := |h| - 1;
    forall j: nat | j < n
      ensures QualifiedAt(window, h[..n], j) <==> QualifiedAt(window, h, j)
    {
      QualifiesPrefix(window, h, n, j);
    }
    if stable.Some? {
      var j: nat :| LatestQualified(window, h[..n], j) && h[..n][j].key == stable.value;
      assert LatestQualified(window, h, j);
    }
  }

  // The stable value changes to the newest key exactly when that qualifies.
  lemma StableStep<K>(window: nat, h: seq<Sighting<K>>)
    requires window > 0 && h != [] && TimeOrdered(h)
    requires CandidateIsLastBlock(h[..|h| - 1], After(window, h[..|h| - 1]))
    ensures After(window, h).stable ==
            if QualifiedAt(window, h, |h| - 1) then Some(h[|h| - 1].key) else After(window, h[..|h| - 1]).stable
  {
    var n := |h| - 1;
    var before := After(window, h[..n]);
    var i := LastBlock(h);
    NewestQualifies(window, h, i);
    if before.stable != Some(h[n].key) {
      if before.candidate.Some? && before.candidate.value.key == h[n].key {
        var k: nat :| StartsLastBlock(h[..n], k) && h[..n][k].at == before.candidate.value.since;
        BlockGrows(h, k);
        NewestQualifies(window, h, k);
      } else {
        assert n > 0 ==> h[n - 1].key != h[n].key;
        assert i == n;
      }
    }
  }

  // The stable value is the one seen in the latest block of equal observations
  // that spans the window, and there is none as long as there is no such block.
  lemma {:induction false} StableValueDecided<K>(window: nat, h: seq<Sighting<K>>)
    requires window > 0 && TimeOrdered(h)
    ensures StableIsLatest(window, h, After(window, h).stable)
    ensures CandidateIsLastBlock(h, After(window, h))
    decreases |h|
  {
    if h != [] {
      var n: nat := |h| - 1;
      StableValueDecided(window, h[..n]);
      CandidateKept(window, h);
      StableStep(window, h);
      if QualifiedAt(window, h, n) {
        assert LatestQualified(window, h, n);
      } else {
        LatestKept(window, h, After(window, h[..n]).stable);
      }
    }
  }

  // Nothing is pending exactly when the newest observation is the stable value.
  lemma SettledExactly<K>(window: nat, h: seq<Sighting<K>>)
    requires window > 0 && TimeOrdered(h) && h != []
    ensures After(window, h).candidate.None? <==> After(window, h).stable == Some(h[|h| - 1].key)
    ensures After(window, h).stable == Some(h[|h| - 1].key) ==>
              exists j: nat :: LatestQualified(window, h, j) && h[j].key == h[|h| - 1].key
  {
    StableValueDecided(window, h);
  }

  // What the monitors check is that no observation is older than the last one.
  lemma InTimeMeans<K>(window: nat, h: seq<Sighting<K>>, at: int)
    ensures InTime(After(window, h), at) <==> h == [] || h[|h| - 1].at <= at
  {
  }

  // An observation in time is one more step.
  lemma OneMore<K>(window: nat, h: seq<Sighting<K>>, next: Sighting<K>)
    requires TimeOrdered(h) && InTime(After(window, h), next.at)
    ensures TimeOrdered(h + [next])
    ensures After(window, h + [next]) == Observe(window, After(window, h), next.key, next.at).0
  {
    assert (h + [next])[..|h|] == h;
    InTimeMeans(window, h, next.at);
  }
}
