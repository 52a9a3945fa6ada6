// One source's slot: the publisher generation it is bound to, the sequence
// baseline and the latest valid sample (control_link_gateway/src/source_binding.cpp,
// source_runtime.cpp).
module SourceRuntime {
  import opened Common
  import opened Messages
  import opened CommandValidator

  // Counters are unbounded here; the program's wrap after 2^64 samples.
  datatype Slot = Slot(
    generation: Option<PublisherKey>,
    lastSequence: Option<uint64>,
    latest: Option<SourceSnapshot>,
    lastReject: Option<RejectReason>,
    accepted: nat,
    rejected: nat)

  const EMPTY_SLOT := Slot(None, None, None, None, 0, 0)

  datatype GenerationUpdate = FirstConfirmation | Unchanged | Changed

  // None stands for the logic_error on a slot with data but no generation.
  function Confirm(slot: Slot, generation: PublisherKey): Option<(Slot, GenerationUpdate)> {
    if slot.generation.None? && slot.lastSequence.None? && slot.latest.None? then
      Some((slot.(generation := Some(generation)), FirstConfirmation))
    else if slot.generation.Some? then
      if slot.generation.value == generation then Some((slot, Unchanged))
      else Some((slot.(generation := Some(generation), lastSequence := None, latest := None), Changed))
    else None
  }

  function Invalidate(slot: Slot): Slot {
    slot.(latest := None)
  }

  predicate MatchesGeneration(slot: Slot, actual: PublisherKey) {
    slot.generation == Some(actual)
  }

  // None stands for a logic_error; the slot is then unchanged.
  function Commit(slot: Slot, verdict: Result<SourceSnapshot, RejectReason>): Option<Slot> {
    match verdict
    case Err(reason) => Some(slot.(lastReject := Some(reason), rejected := slot.rejected + 1))
    case Ok(snapshot) =>
      if slot.generation.None? then None
      else if slot.generation.value != snapshot.generation then None
      else if slot.lastSequence.Some? && snapshot.sequence <= slot.lastSequence.value then None
      else Some(slot.(latest := Some(snapshot), lastSequence := Some(snapshot.sequence), accepted := slot.accepted + 1))
  }

  // What collect_latest_valid_snapshots demands of a slot that holds a snapshot.
  predicate Consistent(sourceId: string, slot: Slot) {
    slot.latest.Some? ==>
      && slot.latest.value.sourceId == sourceId
      && slot.generation == Some(slot.latest.value.generation)
      && slot.lastSequence == Some(slot.latest.value.sequence)
  }

  function Collected(order: seq<string>, slots: map<string, Slot>): (r: seq<SourceSnapshot>)
    requires forall x :: x in order ==> x in slots
  {
    if order == [] then []
    else
      var n := |order| - 1;
      var latest := slots[order[n]].latest;
      Collected(order[..n], slots) + (if latest.Some? then [latest.value] else [])
  }

  // None stands for a logic_error.
  method CollectLatestValidSnapshots(order: seq<string>, slots: map<string, Slot>)
    returns (r: Option<seq<SourceSnapshot>>)
    requires forall x :: x in order ==> x in slots
    ensures r.Some? <==> forall x :: x in order ==> Consistent(x, slots[x])
    ensures r.Some? ==> r.value == Collected(order, slots)
  {
    var snapshots: seq<SourceSnapshot> := [];
    for i := 0 to |order|
      invariant forall k :: 0 <= k < i ==> Consistent(order[k], slots[order[k]])
      invariant snapshots == Collected(order[..i], slots)
    {
      assert order[..i + 1][..i] == order[..i];
      var id, slot := order[i], slots[order[i]];
      if slot.latest.None? {
        continue;
      }
      var snapshot := slot.latest.value;
      if snapshot.sourceId != id || slot.generation.None? || snapshot.generation != slot.generation.value {
        assert !Consistent(order[i], slots[order[i]]);
        return None;
      }
      if slot.lastSequence.None? || slot.lastSequence.value != snapshot.sequence {
        assert !Consistent(order[i], slots[order[i]]);
        return None;
      }
      snapshots := snapshots + [snapshot];
    }
    assert order[..|order|] == order;
    return Some(snapshots);
  }

  lemma {:induction false} CollectedAre(order: seq<string>, slots: map<string, Slot>, s: SourceSnapshot)
    requires forall x :: x in order ==> x in slots
    ensures s in Collected(order, slots) <==> exists x :: x in order && slots[x].latest == Some(s)
  {
    if order != [] {
      var n := |order| - 1;
      CollectedAre(order[..n], slots, s);
      assert s in Collected(order, slots) <==>
             s in Collected(order[..n], slots) || slots[order[n]].latest == Some(s);
      if s in Collected(order, slots) && s in Collected(order[..n], slots) {
        var x :| x in order[..n] && slots[x].latest == Some(s);
        assert x in order;
      }
      if x :| x in order && slots[x].latest == Some(s) {
        assert x in order[..n] || x == order[n];
      }
    }
  }

  // A slot never holds a snapshot or a sequence of another generation than the
  // one it is bound to, and a commit raises the sequence.
  predicate SlotInv(sourceId: string, slot: Slot) {
    && Consistent(sourceId, slot)
    && (slot.lastSequence.Some? ==> slot.generation.Some?)
  }

  lemma ConfirmKeeps(sourceId: string, slot: Slot, generation: PublisherKey)
    requires SlotInv(sourceId, slot)
    ensures Confirm(slot, generation).Some?
    ensures var after := Confirm(slot, generation).value.0;
            && SlotInv(sourceId, after) && after.generation == Some(generation)
            && (slot.generation == Some(generation) ==> after == slot)
            && (slot.generation != Some(generation) ==> after.lastSequence.None? && after.latest.None?)
  {
  }

  lemma CommitKeeps(sourceId: string, slot: Slot, snapshot: SourceSnapshot)
    requires SlotInv(sourceId, slot) && snapshot.sourceId == sourceId
    ensures Commit(slot, Ok(snapshot)).Some? <==>
            && MatchesGeneration(slot, snapshot.generation)
            && (slot.lastSequence.Some? ==> slot.lastSequence.value < snapshot.sequence)
    ensures Commit(slot, Ok(snapshot)).Some? ==>
              var after := Commit(slot, Ok(snapshot)).value;
              && SlotInv(sourceId, after) && after.latest == Some(snapshot)
              && after.generation == slot.generation && after.lastSequence == Some(snapshot.sequence)
  {
  }
}
