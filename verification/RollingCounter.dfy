// The receiver's check on a rolling counter (can_codec.cpp, RollingCounterChecker).
module RollingCounter {
  import opened Common

  datatype CounterObservation = FirstValue | Expected | Duplicate | Jump | Invalid

  predicate IsTrusted(o: CounterObservation) {
    o.FirstValue? || o.Expected?
  }

  // The verdict on `counter`, and the baseline afterwards.
  function Observe(modulo: uint8, last: Option<uint8>, counter: uint8): (CounterObservation, Option<uint8>)
    requires 2 <= modulo <= 16
  {
    if counter >= modulo then (Invalid, last)
    else if last.None? then (FirstValue, Some(counter))
    else if counter == last.value then (Duplicate, last)
    else if counter != (last.value + 1) % modulo then (Jump, None)
    else (Expected, Some(counter))
  }

  class RollingCounterChecker {
    const modulo: uint8
    var lastCounter: Option<uint8>

    constructor (modulo: uint8)
      requires 2 <= modulo <= 16
      ensures this.modulo == modulo && lastCounter == None
    {
      this.modulo := modulo;
      lastCounter := None;
    }

    method ObserveCounter(counter: uint8) returns (observation: CounterObservation)
      requires 2 <= modulo <= 16
      modifies this
      ensures (observation, lastCounter) == Observe(modulo, old(lastCounter), counter)
    {
      if counter >= modulo {
        return Invalid;
      }
      if lastCounter.None? {
        lastCounter := Some(counter);
        return FirstValue;
      }
      if counter == lastCounter.value {
        return Duplicate;
      }
      var expected := (lastCounter.value + 1) % modulo;
      if counter != expected {
        lastCounter := None;
        return Jump;
      }
      lastCounter := Some(counter);
      return Expected;
    }

    method Reset()
      modifies this
      ensures lastCounter == None
    {
      lastCounter := None;
    }
  }

  // The verdicts on a whole stream of counters, from a given baseline.
  function ObserveAll(modulo: uint8, last: Option<uint8>, counters: seq<uint8>): (r: (seq<CounterObservation>, Option<uint8>))
    requires 2 <= modulo <= 16
    ensures |r.0| == |counters|
  {
    if counters == [] then ([], last)
    else
      var (observations, before) := ObserveAll(modulo, last, counters[..|counters| - 1]);
      var (o, after) := Observe(modulo, before, counters[|counters| - 1]);
      (observations + [o], after)
  }

  // A receiver that gets every counter of a sender that counts 0, 1, 2, ...
  // modulo N sees one first value and then only expected ones.
  lemma {:induction false} LosslessStream(modulo: uint8, counters: seq<uint8>)
    requires 2 <= modulo <= 16
    requires forall k :: 0 <= k < |counters| ==> counters[k] == k % modulo
    ensures var (observations, last) := ObserveAll(modulo, None, counters);
            && (forall k :: 0 <= k < |counters| ==>
                  observations[k] == if k == 0 then FirstValue else Expected)
            && last == if counters == [] then None else Some((|counters| - 1) % modulo)
    decreases |counters|
  {
    var n := |counters|;
    if n > 0 {
      LosslessStream(modulo, counters[..n - 1]);
      if n > 1 {
        StreamStep(n - 2, modulo);
      }
    }
  }

  lemma StreamStep(k: nat, modulo: uint8)
    requires 2 <= modulo <= 16
    ensures k % modulo < modulo && (k + 1) % modulo < modulo
    ensures Observe(modulo, Some(k % modulo), (k + 1) % modulo) == (Expected, Some((k + 1) % modulo))
  {
    ResidueOfSum(k, 1, modulo);
    NextCounter(k % modulo, modulo);
  }

  lemma MultipleBound(m: nat, d: int)
    requires 0 < m
    ensures d > 0 ==> m * d >= m
    ensures d < 0 ==> m * d <= 0 - m
  {
  }

  lemma DivisionUnique(m: nat, q: int, r: int, q': int, r': int)
    requires 0 < m && 0 <= r < m && 0 <= r' < m && m * q + r == m * q' + r'
    ensures q == q' && r == r'
  {
    MultipleBound(m, q - q');
    assert m * (q - q') == m * q - m * q';
  }

  lemma ResidueIs(n: nat, m: nat, q: int, r: int)
    requires 0 < m && 0 <= r < m && n == m * q + r
    ensures n % m == r
  {
    DivisionUnique(m, q, r, n / m, n % m);
  }

  // Adding at most one period wraps at most once.
  lemma ResidueOfSum(i: nat, gap: nat, m: nat)
    requires 0 < m && gap <= m
    ensures (i + gap) % m == if i % m + gap < m then i % m + gap else i % m + gap - m
  {
    var q, r := i / m, i % m;
    assert i == m * q + r;
    if r + gap < m {
      ResidueIs(i + gap, m, q, r + gap);
    } else {
      assert m * (q + 1) == m * q + m;
      ResidueIs(i + gap, m, q + 1, r + gap - m);
    }
  }

  // The residue of the next counter, without division.
  lemma NextCounter(c: nat, m: nat)
    requires 2 <= m && c < m
    ensures (c + 1) % m == if c + 1 == m then 0 else c + 1
  {
    ResidueIs(c + 1, m, if c + 1 == m then 1 else 0, if c + 1 == m then 0 else c + 1);
  }

  // On a channel that loses frames: as long as fewer than N frames passed
  // unseen, the frame after the accepted number i is called expected exactly
  // when it is number i + 1, and a duplicate exactly when it is number i + N.
  lemma LossySuccessor(modulo: uint8, i: nat, j: nat)
    requires 2 <= modulo <= 16 && i < j <= i + modulo
    ensures var o := Observe(modulo, Some(i % modulo), j % modulo).0;
            && (o == Expected <==> j == i + 1)
            && (o == Duplicate <==> j == i + modulo)
            && (o == Jump <==> i + 1 < j < i + modulo)
  {
    ResidueOfSum(i, j - i, modulo);
    NextCounter(i % modulo, modulo);
  }
}
