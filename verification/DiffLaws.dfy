// What the comparison of two configurations reports, in terms of their
// identities and texts (control_link_contract/src/reconfiguration.cpp).
module DiffLaws {
  import opened Common
  import opened Reconfiguration

  // The components that differ, of the six that are compared.
  predicate Differs(x: Footprint, y: Footprint, c: Component) {
    match c
    case GatewayContractPart => x.texts.contract != y.texts.contract
    case SourcePolicyPart => x.texts.policy != y.texts.policy
    case ProfileBehaviorPart => x.texts.profile != y.texts.profile
    case CanSignalMapPart => x.texts.can != y.texts.can
    case FastddsProfilePart => x.fastddsHash != y.fastddsHash
    case ContractMetadataPart =>
      x.identity.contractId != y.identity.contractId || x.identity.contractVersion != y.identity.contractVersion
  }

  // The place of a component in the report.
  function Place(c: Component): nat {
    match c
    case GatewayContractPart => 0
    case SourcePolicyPart => 1
    case ProfileBehaviorPart => 2
    case CanSignalMapPart => 3
    case FastddsProfilePart => 4
    case ContractMetadataPart => 5
  }

  predicate InOrder(components: seq<Component>, below: nat) {
    && (forall i :: 0 <= i < |components| ==> Place(components[i]) < below)
    && forall i, j :: 0 <= i < j < |components| ==> Place(components[i]) < Place(components[j])
  }

  lemma StaysInOrder(components: seq<Component>, changed: bool, added: Component)
    requires InOrder(components, Place(added))
    ensures InOrder(Appended(components, changed, added), Place(added) + 1)
  {
  }

  lemma FirstInOrder(a: bool, b: bool, c: bool)
    ensures InOrder(Appended(Appended(Appended([], a, GatewayContractPart), b, SourcePolicyPart), c, ProfileBehaviorPart), 3)
  {
    var l1 := Appended([], a, GatewayContractPart);
    StaysInOrder([], a, GatewayContractPart);
    StaysInOrder(l1, b, SourcePolicyPart);
    StaysInOrder(Appended(l1, b, SourcePolicyPart), c, ProfileBehaviorPart);
  }

  lemma LastInOrder(l3: seq<Component>, a: bool, b: bool, c: bool)
    requires InOrder(l3, 3)
    ensures InOrder(Appended(Appended(Appended(l3, a, CanSignalMapPart), b, FastddsProfilePart), c, ContractMetadataPart), 6)
  {
    var l4 := Appended(l3, a, CanSignalMapPart);
    StaysInOrder(l3, a, CanSignalMapPart);
    StaysInOrder(l4, b, FastddsProfilePart);
    StaysInOrder(Appended(l4, b, FastddsProfilePart), c, ContractMetadataPart);
  }

  lemma ListedInOrder(c: Changes)
    ensures InOrder(ComponentsOf(c), 6)
  {
    FirstInOrder(c.gatewayContract, c.sourcePolicy, c.profileBehavior);
    LastInOrder(
      Appended(Appended(Appended([], c.gatewayContract, GatewayContractPart), c.sourcePolicy, SourcePolicyPart),
               c.profileBehavior, ProfileBehaviorPart),
      c.canSignalMap, c.fastddsProfile, c.contractMetadata);
  }

  // A component is listed exactly when its part of the two configurations
  // differs, once and in this order, and the diff names the two identities.
  lemma ListedExactly(x: Footprint, y: Footprint)
    ensures forall c :: c in DiffOf(x, y).changedComponents <==> Differs(x, y, c)
    ensures InOrder(DiffOf(x, y).changedComponents, 6)
    ensures DiffOf(x, y).current == x.identity && DiffOf(x, y).candidate == y.identity
  {
    forall c: Component
      ensures c in ComponentsOf(ChangesOf(x, y)) <==> Differs(x, y, c)
    {
      ComponentsListed(ChangesOf(x, y), c);
    }
    ListedInOrder(ChangesOf(x, y));
  }

  function Names(components: seq<Component>): (r: seq<string>)
    ensures |r| == |components| && forall i :: 0 <= i < |r| ==> r[i] == ComponentName(components[i])
  {
    seq(|components|, i requires 0 <= i < |components| => ComponentName(components[i]))
  }

  lemma NamedIfListed(components: seq<Component>, c: Component)
    ensures ComponentName(c) in Names(components) <==> c in components
  {
    if i :| 0 <= i < |components| && components[i] == c {
      assert Names(components)[i] == ComponentName(c);
    }
    if i :| 0 <= i < |components| && Names(components)[i] == ComponentName(c) {
      NamesDiffer(components[i], c);
    }
  }

  // By its name, and these are the names.
  lemma NamedExactly(x: Footprint, y: Footprint, c: Component)
    ensures ComponentName(c) in Names(DiffOf(x, y).changedComponents) <==> Differs(x, y, c)
    ensures match c
            case GatewayContractPart => ComponentName(c) == "gateway_contract"
            case SourcePolicyPart => ComponentName(c) == "source_policy"
            case ProfileBehaviorPart => ComponentName(c) == "profile_behavior"
            case CanSignalMapPart => ComponentName(c) == "can_signal_map"
            case FastddsProfilePart => ComponentName(c) == "fastdds_profile"
            case ContractMetadataPart => ComponentName(c) == "contract_metadata"
  {
    ListedExactly(x, y);
    NamedIfListed(DiffOf(x, y).changedComponents, c);
  }

  // Contract family and profile are the same, and the version does not go back.
  predicate SameLine(x: Footprint, y: Footprint) {
    && x.identity.contractId == y.identity.contractId && x.identity.profileId == y.identity.profileId
    && x.identity.contractVersion <= y.identity.contractVersion
  }

  predicate BehavesDifferently(x: Footprint, y: Footprint) {
    x.texts != y.texts
  }

  // The classification and its reason: the first that applies of a different
  // family, another profile, a version that goes back, a changed contract
  // without a new version, a hash that does not tell the texts apart; and then
  // a restart for what belongs to the participants, a rebuild for what belongs
  // to the gateway.
  lemma ReasonExactly(x: Footprint, y: Footprint)
    ensures var d := DiffOf(x, y);
            var restart :=
              x.texts.profile != y.texts.profile || x.texts.can != y.texts.can || x.fastddsHash != y.fastddsHash;
            match d.reason
            case DifferentFamily => d.classification.Incompatible? && x.identity.contractId != y.identity.contractId
            case DifferentProfile =>
              && d.classification.Incompatible? && x.identity.contractId == y.identity.contractId
              && x.identity.profileId != y.identity.profileId
            case VersionBackwards =>
              && d.classification.Incompatible? && x.identity.contractId == y.identity.contractId
              && x.identity.profileId == y.identity.profileId && y.identity.contractVersion < x.identity.contractVersion
            case VersionNotIncreased =>
              && d.classification.Incompatible? && SameLine(x, y)
              && x.texts.contract != y.texts.contract && x.identity.contractVersion == y.identity.contractVersion
            case UnclassifiedChange =>
              && d.classification.Incompatible? && SameLine(x, y)
              && (x.identity.decisionHash == y.identity.decisionHash <==> BehavesDifferently(x, y))
            case ParticipantBehavior =>
              && d.classification.ProfileRestartRequired? && SameLine(x, y) && restart
              && (x.identity.decisionHash != y.identity.decisionHash <==> BehavesDifferently(x, y))
            case GatewayBehavior =>
              && d.classification.EndpointRebuildRequired? && SameLine(x, y) && !restart
              && BehavesDifferently(x, y) && x.identity.decisionHash != y.identity.decisionHash
            case NothingChanged =>
              && d.classification.IdentityOnly? && SameLine(x, y) && !restart
              && !BehavesDifferently(x, y) && x.identity.decisionHash == y.identity.decisionHash
    ensures var d := DiffOf(x, y);
            d.classification.ProfileRestartRequired? || d.classification.EndpointRebuildRequired? ==>
              (x.texts.contract != y.texts.contract ==> x.identity.contractVersion < y.identity.contractVersion)
  {
  }

  // A bundle can be compared if nothing is missing, the FastDDS hash is 64
  // characters long, and it has a CAN map exactly for an ADAS profile.
  predicate Whole(b: Bundle) {
    && b.profile.Some? && b.contract.Some? && b.policy.Some? && |b.fastddsHash| == 64
    && (b.can.Some? <==> b.profile.value.AdasProfile?)
  }

  lemma RequestRefused(current: Option<Bundle>, candidate: Option<Bundle>, expectedHash: string)
    requires RequestRefusal(current, candidate, expectedHash).Some?
    ensures match RequestRefusal(current, candidate, expectedHash).value
            case IncompleteBundle => current.None? || candidate.None?
            case MissingExpectedHash => current.Some? && candidate.Some? && expectedHash == ""
            case StaleCurrentHash =>
              && current.Some? && candidate.Some? && expectedHash != ""
              && current.value.identity.decisionHash != expectedHash
  {
  }

  // Why a plan is not made: the bundles, the hash, and the bundles again.
  lemma RefusedExactly(current: Option<Bundle>, candidate: Option<Bundle>, expectedHash: string)
    requires current.Some? && candidate.Some? ==> Comparable(current.value, candidate.value)
    requires PlanResult(current, candidate, expectedHash).Err?
    ensures match PlanResult(current, candidate, expectedHash).error
            case IncompleteBundle =>
              || current.None? || candidate.None?
              || (&& expectedHash != "" && current.value.identity.decisionHash == expectedHash
                  && (!Whole(current.value) || !Whole(candidate.value)))
            case MissingExpectedHash => current.Some? && candidate.Some? && expectedHash == ""
            case StaleCurrentHash =>
              && current.Some? && candidate.Some? && expectedHash != ""
              && current.value.identity.decisionHash != expectedHash
  {
    RequestTakenExactly(current, candidate, expectedHash);
    if RequestRefusal(current, candidate, expectedHash).None? {
      PlanRefused(current.value, candidate.value);
    } else {
      RequestRefused(current, candidate, expectedHash);
    }
  }

  lemma PlanRefused(a: Bundle, b: Bundle)
    requires Comparable(a, b)
    ensures PlanOf(a, b, DiffResult(a, b)).Ok? <==> Whole(a) && Whole(b)
    ensures PlanOf(a, b, DiffResult(a, b)).Err? ==> PlanOf(a, b, DiffResult(a, b)).error == IncompleteBundle
  {
    WholeIsComplete(a);
    WholeIsComplete(b);
    PlanMade(a, b);
    DiffRefused(a, b);
    PlanOfError(a, b, DiffResult(a, b));
  }

  lemma PlanOfError(a: Bundle, b: Bundle, diff: Result<ConfigDiff, PrecheckError>)
    ensures diff.Err? ==> PlanOf(a, b, diff) == Err(diff.error)
  {
  }

  lemma DiffRefused(a: Bundle, b: Bundle)
    requires Comparable(a, b)
    ensures DiffResult(a, b).Err? ==> DiffResult(a, b).error == IncompleteBundle
  {
  }

  lemma WholeIsComplete(b: Bundle)
    ensures IsComplete(b) <==> Whole(b)
  {
  }
}
