// Whether a candidate configuration may replace the running one
// (control_link_contract/src/reconfiguration.cpp). The digest is a parameter.
module Reconfiguration {
  import opened Common
  import opened Messages
  import opened ConfigModel
  import T = ContractText
  import D = DecisionText

  datatype Identity = Identity(
    contractId: string,
    contractVersion: uint64,
    contractHash: string,
    profileId: string,
    decisionHash: string)

  // Null pointers are None.
  datatype Bundle = Bundle(
    contract: Option<GatewayContract>,
    policy: Option<SourcePolicy>,
    profile: Option<Profile>,
    can: Option<CanSignalMap>,
    fastddsHash: string,
    identity: Identity)

  const HASH_LENGTH: nat := 64

  predicate IsComplete(b: Bundle) {
    && b.profile.Some? && b.contract.Some? && b.policy.Some?
    && |b.fastddsHash| == HASH_LENGTH
    && b.profile.value.AdasProfile? == b.can.Some?
  }

  // The bundle loader makes sure of this: every enabled source has a policy
  // entry, and the identity was computed from the parts.
  predicate SourcesKnown(b: Bundle)
    requires IsComplete(b)
  {
    D.PolicyCovers(b.policy.value, b.profile.value)
  }

  function DecisionOf(b: Bundle): (d: D.Decision)
    requires IsComplete(b) && SourcesKnown(b)
    ensures D.Complete(d)
  {
    D.Decision(T.TextOf(b.contract.value), b.policy.value, b.profile.value, b.can)
  }

  predicate HashIsDigest(digest: string -> string, b: Bundle)
    requires IsComplete(b) && SourcesKnown(b)
  {
    b.identity.decisionHash == digest(D.WholeText(DecisionOf(b)))
  }

  predicate IsLoaded(digest: string -> string, b: Bundle) {
    && IsComplete(b) && SourcesKnown(b) && HashIsDigest(digest, b)
    && b.identity.contractId == b.contract.value.contractId
    && b.identity.contractVersion == b.contract.value.contractVersion
    && b.identity.contractHash == digest(T.TextOf(b.contract.value))
    && b.identity.profileId == D.ProfileId(b.profile.value)
  }

  // --------------------------------------------------------------- diff

  datatype ChangeClass = IdentityOnly | EndpointRebuildRequired | ProfileRestartRequired | Incompatible

  datatype Reason =
    | DifferentFamily | DifferentProfile | VersionBackwards | VersionNotIncreased | UnclassifiedChange
    | ParticipantBehavior | GatewayBehavior | NothingChanged

  // The components that a diff can list, and the names it lists them by.
  datatype Component =
    | GatewayContractPart | SourcePolicyPart | ProfileBehaviorPart | CanSignalMapPart | FastddsProfilePart
    | ContractMetadataPart

  function ComponentName(c: Component): string {
    match c
    case GatewayContractPart => "gateway_contract"
    case SourcePolicyPart => "source_policy"
    case ProfileBehaviorPart => "profile_behavior"
    case CanSignalMapPart => "can_signal_map"
    case FastddsProfilePart => "fastdds_profile"
    case ContractMetadataPart => "contract_metadata"
  }

  datatype Changes = Changes(
    gatewayContract: bool,
    sourcePolicy: bool,
    profileBehavior: bool,
    canSignalMap: bool,
    fastddsProfile: bool,
    contractMetadata: bool)

  datatype ConfigDiff = ConfigDiff(
    classification: ChangeClass,
    current: Identity,
    candidate: Identity,
    changes: Changes,
    changedComponents: seq<Component>,
    reason: Reason)

  datatype PrecheckError = IncompleteBundle | MissingExpectedHash | StaleCurrentHash

  // All that the comparison looks at.
  datatype Footprint = Footprint(identity: Identity, texts: D.Texts, fastddsHash: string)

  function FootprintOf(b: Bundle): Footprint
    requires IsComplete(b) && SourcesKnown(b)
  {
    Footprint(b.identity, D.TextsOf(DecisionOf(b)), b.fastddsHash)
  }

  function ChangesOf(x: Footprint, y: Footprint): Changes {
    Changes(x.texts.contract != y.texts.contract, x.texts.policy != y.texts.policy,
            x.texts.profile != y.texts.profile, x.texts.can != y.texts.can, x.fastddsHash != y.fastddsHash,
            x.identity.contractId != y.identity.contractId || x.identity.contractVersion != y.identity.contractVersion)
  }

  predicate BehaviorChanged(c: Changes) {
    c.gatewayContract || c.sourcePolicy || c.profileBehavior || c.canSignalMap
  }

  // The first rule that applies decides.
  function Classify(a: Identity, b: Identity, c: Changes): (ChangeClass, Reason) {
    if a.contractId != b.contractId then (Incompatible, DifferentFamily)
    else if a.profileId != b.profileId then (Incompatible, DifferentProfile)
    else if b.contractVersion < a.contractVersion then (Incompatible, VersionBackwards)
    else if c.gatewayContract && b.contractVersion <= a.contractVersion then (Incompatible, VersionNotIncreased)
    else if (a.decisionHash != b.decisionHash) != BehaviorChanged(c) then (Incompatible, UnclassifiedChange)
    else if c.profileBehavior || c.canSignalMap || c.fastddsProfile then (ProfileRestartRequired, ParticipantBehavior)
    else if c.gatewayContract || c.sourcePolicy then (EndpointRebuildRequired, GatewayBehavior)
    else (IdentityOnly, NothingChanged)
  }

  function Appended(components: seq<Component>, changed: bool, added: Component): seq<Component> {
    if changed then components + [added] else components
  }

  function ComponentsOf(c: Changes): seq<Component> {
    Appended(Appended(Appended(Appended(Appended(Appended(
      [], c.gatewayContract, GatewayContractPart), c.sourcePolicy, SourcePolicyPart),
      c.profileBehavior, ProfileBehaviorPart), c.canSignalMap, CanSignalMapPart),
      c.fastddsProfile, FastddsProfilePart), c.contractMetadata, ContractMetadataPart)
  }

  function DiffOf(x: Footprint, y: Footprint): ConfigDiff {
    var c := ChangesOf(x, y);
    var (classification, reason) := Classify(x.identity, y.identity, c);
    ConfigDiff(classification, x.identity, y.identity, c, ComponentsOf(c), reason)
  }

  lemma DiffNames(x: Footprint, y: Footprint)
    ensures DiffOf(x, y).current == x.identity && DiffOf(x, y).candidate == y.identity
  {
  }

  method CanSignalMapChanged(current: Option<string>, candidate: Option<string>) returns (changed: bool)
    ensures changed <==> current != candidate
  {
    if current.Some? != candidate.Some? {
      return true;
    }
    if current.None? {
      return false;
    }
    return current.value != candidate.value;
  }

  method CompareFootprints(x: Footprint, y: Footprint) returns (d: ConfigDiff)
    ensures d == DiffOf(x, y)
  {
    var can := CanSignalMapChanged(x.texts.can, y.texts.can);
    var c := Changes(
      x.texts.contract != y.texts.contract, x.texts.policy != y.texts.policy, x.texts.profile != y.texts.profile, can,
      x.fastddsHash != y.fastddsHash,
      x.identity.contractId != y.identity.contractId || x.identity.contractVersion != y.identity.contractVersion);
    var components: seq<Component> := [];
    components := Appended(components, c.gatewayContract, GatewayContractPart);
    components := Appended(components, c.sourcePolicy, SourcePolicyPart);
    components := Appended(components, c.profileBehavior, ProfileBehaviorPart);
    components := Appended(components, c.canSignalMap, CanSignalMapPart);
    components := Appended(components, c.fastddsProfile, FastddsProfilePart);
    components := Appended(components, c.contractMetadata, ContractMetadataPart);
    var (classification, reason) := Classify(x.identity, y.identity, c);
    d := ConfigDiff(classification, x.identity, y.identity, c, components, reason);
  }

  // Both bundles cover the sources that they enable.
  predicate Comparable(a: Bundle, b: Bundle) {
    (IsComplete(a) ==> SourcesKnown(a)) && (IsComplete(b) ==> SourcesKnown(b))
  }

  function DiffResult(a: Bundle, b: Bundle): Result<ConfigDiff, PrecheckError>
    requires Comparable(a, b)
  {
    if IsComplete(a) && IsComplete(b) then Ok(DiffOf(FootprintOf(a), FootprintOf(b))) else Err(IncompleteBundle)
  }

  method DiffContractBundles(a: Bundle, b: Bundle) returns (r: Result<ConfigDiff, PrecheckError>)
    requires Comparable(a, b)
    ensures r == DiffResult(a, b)
  {
    if !IsComplete(a) || !IsComplete(b) {
      return Err(IncompleteBundle);
    }
    var d := CompareFootprints(FootprintOf(a), FootprintOf(b));
    return Ok(d);
  }

  datatype Plan = Plan(current: Bundle, candidate: Bundle, diff: ConfigDiff)

  // The diff of a plan is that of its two bundles.
  predicate IsPlan(plan: Plan) {
    Comparable(plan.current, plan.candidate) && DiffResult(plan.current, plan.candidate) == Ok(plan.diff)
  }

  function PlanOf(a: Bundle, b: Bundle, diff: Result<ConfigDiff, PrecheckError>): Result<Plan, PrecheckError> {
    match diff
    case Err(e) => Err(e)
    case Ok(d) => Ok(Plan(a, b, d))
  }

  // What is wrong with a request before the bundles are compared; the first
  // reason that applies.
  function RequestRefusal(current: Option<Bundle>, candidate: Option<Bundle>, expectedHash: string)
    : Option<PrecheckError>
  {
    if current.None? || candidate.None? then Some(IncompleteBundle)
    else if expectedHash == "" then Some(MissingExpectedHash)
    else if current.value.identity.decisionHash != expectedHash then Some(StaleCurrentHash)
    else None
  }

  function PlanResult(current: Option<Bundle>, candidate: Option<Bundle>, expectedHash: string)
    : Result<Plan, PrecheckError>
    requires current.Some? && candidate.Some? ==> Comparable(current.value, candidate.value)
  {
    match RequestRefusal(current, candidate, expectedHash)
    case Some(reason) => Err(reason)
    case None => PlanOf(current.value, candidate.value, DiffResult(current.value, candidate.value))
  }

  lemma PlanOfDiff(a: Bundle, b: Bundle, diff: Result<ConfigDiff, PrecheckError>)
    ensures PlanOf(a, b, diff).Ok? <==> diff.Ok?
    ensures diff.Ok? ==> PlanOf(a, b, diff) == Ok(Plan(a, b, diff.value))
  {
  }

  lemma DiffMadeExactly(a: Bundle, b: Bundle)
    requires Comparable(a, b)
    ensures DiffResult(a, b).Ok? <==> IsComplete(a) && IsComplete(b)
  {
  }

  // A plan is of the two bundles it was asked for, with their diff.
  lemma PlanIsOfBundles(current: Option<Bundle>, candidate: Option<Bundle>, expectedHash: string)
    requires current.Some? && candidate.Some? ==> Comparable(current.value, candidate.value)
    requires PlanResult(current, candidate, expectedHash).Ok?
    ensures var plan := PlanResult(current, candidate, expectedHash).value;
            Some(plan.current) == current && Some(plan.candidate) == candidate && IsPlan(plan)
  {
    PlanOfDiff(current.value, candidate.value, DiffResult(current.value, candidate.value));
  }

  // The first bundle is the expected one.
  lemma RequestTakenExactly(current: Option<Bundle>, candidate: Option<Bundle>, expectedHash: string)
    ensures RequestRefusal(current, candidate, expectedHash).None? <==>
            && current.Some? && candidate.Some? && expectedHash != ""
            && current.value.identity.decisionHash == expectedHash
  {
  }

  // A plan is made exactly for a request that is taken, of two complete bundles.
  lemma PlanMadeExactly(current: Option<Bundle>, candidate: Option<Bundle>, expectedHash: string)
    requires current.Some? && candidate.Some? ==> Comparable(current.value, candidate.value)
    ensures PlanResult(current, candidate, expectedHash).Ok? <==>
            && RequestRefusal(current, candidate, expectedHash).None?
            && IsComplete(current.value) && IsComplete(candidate.value)
  {
    if RequestRefusal(current, candidate, expectedHash).None? {
      PlanMade(current.value, candidate.value);
    }
  }

  lemma PlanMade(a: Bundle, b: Bundle)
    requires Comparable(a, b)
    ensures PlanOf(a, b, DiffResult(a, b)).Ok? <==> IsComplete(a) && IsComplete(b)
  {
    DiffMadeExactly(a, b);
    PlanOfDiff(a, b, DiffResult(a, b));
  }

  // The caller's expected hash has to be that of the bundle it would replace.
  method BuildReconfigurationPlan(current: Option<Bundle>, candidate: Option<Bundle>, expectedHash: string)
    returns (r: Result<Plan, PrecheckError>)
    requires current.Some? && candidate.Some? ==> Comparable(current.value, candidate.value)
    ensures r == PlanResult(current, candidate, expectedHash)
  {
    if current.None? || candidate.None? {
      return Err(IncompleteBundle);
    }
    if expectedHash == "" {
      return Err(MissingExpectedHash);
    }
    if current.value.identity.decisionHash != expectedHash {
      return Err(StaleCurrentHash);
    }
    r := PlanFor(current.value, candidate.value);
  }

  method PlanFor(current: Bundle, candidate: Bundle) returns (r: Result<Plan, PrecheckError>)
    requires Comparable(current, candidate)
    ensures r == PlanOf(current, candidate, DiffResult(current, candidate))
  {
    var diff := DiffContractBundles(current, candidate);
    match diff {
      case Err(e) => return Err(e);
      case Ok(d) => return Ok(Plan(current, candidate, d));
    }
  }

  // ------------------------------------------------------------ properties

  ghost predicate CollisionFree(digest: string -> string) {
    forall x, y :: digest(x) == digest(y) ==> x == y
  }

  // The hash of the whole configuration tells two bundles apart exactly when
  // one of the components does.
  predicate HashTells(x: Footprint, y: Footprint) {
    x.identity.decisionHash != y.identity.decisionHash <==> BehaviorChanged(ChangesOf(x, y))
  }

  lemma TextsTell(x: Footprint, y: Footprint)
    requires x.identity.decisionHash == y.identity.decisionHash <==> x.texts == y.texts
    ensures HashTells(x, y) && DiffOf(x, y).reason != UnclassifiedChange
  {
  }

  // The identity that goes with these texts: the hash is that of the whole
  // configuration.
  ghost predicate Hashed(digest: string -> string, x: Footprint, d: D.Decision) {
    D.Complete(d) && x.texts == D.TextsOf(d) && x.identity.decisionHash == digest(D.WholeText(d))
  }

  // x is what the comparison sees of a configuration hashed with this digest.
  ghost predicate OfLoaded(digest: string -> string, x: Footprint) {
    exists d :: Hashed(digest, x, d)
  }

  lemma LoadedBundle(digest: string -> string, b: Bundle)
    requires IsLoaded(digest, b)
    ensures OfLoaded(digest, FootprintOf(b))
  {
    assert Hashed(digest, FootprintOf(b), DecisionOf(b));
  }

  lemma LoadedHashesTell(digest: string -> string, x: Footprint, y: Footprint)
    requires CollisionFree(digest) && OfLoaded(digest, x) && OfLoaded(digest, y)
    ensures HashTells(x, y) && DiffOf(x, y).reason != UnclassifiedChange
  {
    var d :| Hashed(digest, x, d);
    var e :| Hashed(digest, y, e);
    HashesTellTexts(digest, x, y, d, e);
    TextsTell(x, y);
  }

  lemma HashesTellTexts(digest: string -> string, x: Footprint, y: Footprint, d: D.Decision, e: D.Decision)
    requires CollisionFree(digest) && Hashed(digest, x, d) && Hashed(digest, y, e)
    ensures x.identity.decisionHash == y.identity.decisionHash <==> x.texts == y.texts
  {
    D.WholeIsTexts(d, e);
  }

  predicate Changed(c: Changes, x: Component) {
    match x
    case GatewayContractPart => c.gatewayContract
    case SourcePolicyPart => c.sourcePolicy
    case ProfileBehaviorPart => c.profileBehavior
    case CanSignalMapPart => c.canSignalMap
    case FastddsProfilePart => c.fastddsProfile
    case ContractMetadataPart => c.contractMetadata
  }

  lemma AppendedListed(components: seq<Component>, changed: bool, added: Component, x: Component)
    ensures x in Appended(components, changed, added) <==> x in components || (changed && x == added)
  {
  }

  // A component is listed exactly when it changed.
  lemma ComponentsListed(c: Changes, x: Component)
    ensures x in ComponentsOf(c) <==> Changed(c, x)
  {
    var l1 := Appended([], c.gatewayContract, GatewayContractPart);
    AppendedListed([], c.gatewayContract, GatewayContractPart, x);
    var l2 := Appended(l1, c.sourcePolicy, SourcePolicyPart);
    AppendedListed(l1, c.sourcePolicy, SourcePolicyPart, x);
    var l3 := Appended(l2, c.profileBehavior, ProfileBehaviorPart);
    AppendedListed(l2, c.profileBehavior, ProfileBehaviorPart, x);
    var l4 := Appended(l3, c.canSignalMap, CanSignalMapPart);
    AppendedListed(l3, c.canSignalMap, CanSignalMapPart, x);
    var l5 := Appended(l4, c.fastddsProfile, FastddsProfilePart);
    AppendedListed(l4, c.fastddsProfile, FastddsProfilePart, x);
    AppendedListed(l5, c.contractMetadata, ContractMetadataPart, x);
  }

  lemma NamesDiffer(x: Component, y: Component)
    ensures ComponentName(x) == ComponentName(y) <==> x == y
  {
    assert ComponentName(x)[0] != ComponentName(y)[0] || ComponentName(x)[1] != ComponentName(y)[1]
           || |ComponentName(x)| != |ComponentName(y)| || x == y;
  }

  // With a collision-free digest no change goes unclassified: the branch for it
  // is never taken.
  lemma NoUnclassifiedChange(digest: string -> string, a: Bundle, b: Bundle)
    requires CollisionFree(digest) && IsLoaded(digest, a) && IsLoaded(digest, b)
    ensures DiffOf(FootprintOf(a), FootprintOf(b)).reason != UnclassifiedChange
    ensures a.identity.decisionHash != b.identity.decisionHash <==>
            BehaviorChanged(ChangesOf(FootprintOf(a), FootprintOf(b)))
  {
    LoadedBundle(digest, a);
    LoadedBundle(digest, b);
    LoadedHashesTell(digest, FootprintOf(a), FootprintOf(b));
  }

  predicate Compatible(x: Footprint, y: Footprint) {
    !DiffOf(x, y).classification.Incompatible?
  }

  predicate NeedsRestart(x: Footprint, y: Footprint) {
    DiffOf(x, y).classification.ProfileRestartRequired?
  }

  // What compatibility amounts to: the same contract family and profile, a
  // version that does not go back, and goes up when the contract's text
  // changes.
  lemma CompatibleExactly(x: Footprint, y: Footprint)
    requires HashTells(x, y)
    ensures Compatible(x, y) <==>
            && x.identity.contractId == y.identity.contractId && x.identity.profileId == y.identity.profileId
            && x.identity.contractVersion <= y.identity.contractVersion
            && (x.texts.contract != y.texts.contract ==> x.identity.contractVersion < y.identity.contractVersion)
    ensures NeedsRestart(x, y) <==>
            && Compatible(x, y)
            && (x.texts.profile != y.texts.profile || x.texts.can != y.texts.can || x.fastddsHash != y.fastddsHash)
    ensures DiffOf(x, y).classification.IdentityOnly? <==>
            && Compatible(x, y)
            && x.texts.contract == y.texts.contract && x.texts.policy == y.texts.policy && x.texts.profile == y.texts.profile
            && x.texts.can == y.texts.can && x.fastddsHash == y.fastddsHash
  {
  }

  // A chain of footprints whose hashes tell them apart.
  ghost predicate IsChain(chain: seq<Footprint>) {
    chain != [] && forall i, j :: 0 <= i < |chain| && 0 <= j < |chain| ==> HashTells(chain[i], chain[j])
  }

  ghost predicate HopsCompatible(chain: seq<Footprint>) {
    forall i :: 0 < i < |chain| ==> Compatible(chain[i - 1], chain[i])
  }

  ghost predicate NoHopRestarts(chain: seq<Footprint>) {
    forall i :: 0 < i < |chain| ==> !NeedsRestart(chain[i - 1], chain[i])
  }

  lemma HopsCompose(x: Footprint, y: Footprint, z: Footprint)
    requires HashTells(x, y) && HashTells(y, z) && HashTells(x, z)
    requires Compatible(x, y) && Compatible(y, z)
    ensures Compatible(x, z)
    ensures !NeedsRestart(x, y) && !NeedsRestart(y, z) ==> !NeedsRestart(x, z)
    ensures x.identity.contractVersion <= z.identity.contractVersion
  {
    CompatibleExactly(x, y);
    CompatibleExactly(y, z);
    CompatibleExactly(x, z);
  }

  // Compatible hops compose over any chain; a chain of hops that need no
  // profile restart needs none end to end; and versions never go back.
  lemma {:induction false} ChainsCompose(chain: seq<Footprint>)
    requires IsChain(chain) && HopsCompatible(chain)
    ensures var x, y := chain[0], chain[|chain| - 1];
            && Compatible(x, y) && x.identity.contractVersion <= y.identity.contractVersion
            && (NoHopRestarts(chain) ==> !NeedsRestart(x, y))
  {
    var n := |chain| - 1;
    if n == 0 {
      Reflexive(chain[0]);
    } else {
      ChainsCompose(chain[..n]);
      HopsCompose(chain[0], chain[n - 1], chain[n]);
    }
  }

  // Bundles loaded with the same collision-free digest form such a chain.
  lemma LoadedChain(digest: string -> string, chain: seq<Footprint>)
    requires CollisionFree(digest) && chain != [] && forall i :: 0 <= i < |chain| ==> OfLoaded(digest, chain[i])
    ensures IsChain(chain)
  {
    forall i, j | 0 <= i < |chain| && 0 <= j < |chain|
      ensures HashTells(chain[i], chain[j])
    {
      LoadedHashesTell(digest, chain[i], chain[j]);
    }
  }

  // A bundle is compatible with itself, without any change.
  lemma Reflexive(x: Footprint)
    ensures Compatible(x, x) && DiffOf(x, x).classification.IdentityOnly? && DiffOf(x, x).changedComponents == []
  {
  }

  // Bundles that may replace each other both ways have the same contract text
  // and the same version.
  lemma TwoWayMeansSameContract(digest: string -> string, x: Footprint, y: Footprint)
    requires CollisionFree(digest) && OfLoaded(digest, x) && OfLoaded(digest, y)
    requires Compatible(x, y) && Compatible(y, x)
    ensures x.texts.contract == y.texts.contract && x.identity.contractVersion == y.identity.contractVersion
  {
    LoadedHashesTell(digest, x, y);
    LoadedHashesTell(digest, y, x);
    CompatibleExactly(x, y);
    CompatibleExactly(y, x);
  }
}
