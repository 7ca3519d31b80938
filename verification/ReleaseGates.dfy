/** Release readiness: what evidence counts, which gates pass, how long the snapshot stays true. This is
    the policy's separate-reviewers mode. Digests and signature checks arrive as computed. */
module ReleaseGates {
  import opened Options

  const FUTURE_SKEW := 300_000
  const DAY_MINUTES := 1440
  const GATES := 13
  const R00 := 0
  const R10 := 10
  const R11 := 11
  const R12 := 12

  /** Minutes in milliseconds. */
  function Minutes(n: int): int { 60_000 * n }

  /** Gate R`n`. */
  type GateId = nat

  /** The gates of the retired launch contract, by their place in its list. */
  type LegacyId = nat

  datatype Environment = Local | Ci | Staging | Production
  datatype EvidenceClass = Test | LiveRun | Human | Operator
  /** What checking the signature found: a valid one names the owner of its key. */
  datatype SignatureCheck = Valid(owner: string) | Unsigned | UntrustedKey | InvalidSignature

  /** `approval:<role>` and `legacy:<id>` are assertion ids with a meaning of their own. */
  datatype AssertionId = CheckId(id: string) | ApprovalBy(role: Role) | LegacyDecision(legacyId: LegacyId)
  datatype Assertion = Assertion(id: AssertionId, passed: bool)

  const RELEASE_ATTESTATION := "release_attestation"
  const DECISION_RECORD := "authority_decision_record"
  const RECOVERY_POINT := "recovery_point"
  const SCOPE := "scope"
  const ARTIFACTS := "artifacts"
  const RECOVERY := "recoveryPoint"
  const ACCOUNTS := "providerAccounts"

  /** The artifacts of a release, in the order of the manifest. */
  const ARTIFACT_NAMES: seq<string> := ["web", "worker", "migration", "gateway"]

  /** How many gates the retired launch contract had. */
  const LEGACY_GATES := 12

  /** Why an artifact does not count. */
  datatype Reason =
    | UnreadableFile(what: string) | UnknownType | AdmittedModeMismatch | NotInManifest | EvidenceDigestMismatch | WrongRelease
    | WrongPolicy | PolicyDigestMismatch | DataDigestMismatch | WrongEnvironment | WrongEvidenceClass | NotLiveEnvironment
    | TestEnvironmentMismatch | RedactionRequired | ArtifactUnknown(name: string) | ArtifactMismatch(name: string)
    | ObservedInFuture | Stale | Expired | ReviewerMissing | SignatureNot(check: SignatureCheck) | AssertionFailed
    | MissingRequiredAssertion(id: AssertionId) | DuplicateId

  /** What a manifest lacks. */
  datatype Gap =
    | UnknownField(path: seq<string>) | ShaPlaceholder | NoProviderAccounts | UnsupportedRole | RoleGap(role: Role)
    | ReviewerNotSeparate | EvidenceGap(id: string) | ApprovalUnverified(role: Role) | EvidenceNotSeparate
    | SealedInFuture | RecoveryStale

  /** Why a gate is blocked. */
  datatype Blocker =
    | PolicyRevisionMismatch | SpecVersionMismatch | NonDeployedRelease | ProductionRequired | DependencyBlocked(gate: GateId)
    | MissingEvidence(evidenceType: string) | MissingAssertion(id: AssertionId) | ManifestIncomplete | LegacyMappingUnapproved(legacyId: LegacyId)

  /** One evidence artifact. `digest` is its own, `check` what its signature turned out to be; `observedAt`
      is the moment that `observedText` names. */
  datatype Artifact = Artifact(
    id: string, evidenceType: string, gate: GateId, environment: Environment, evidenceClass: EvidenceClass,
    releaseSha: string, digests: map<string, string>, policyRevision: string, policyDigest: string, dataDigest: string,
    attestedEvidenceDigest: Option<string>, observedText: string, observedAt: int, expiresAt: Option<int>, reviewer: Option<string>,
    assertions: seq<Assertion>, unredacted: bool, check: SignatureCheck, digest: string)

  datatype File = File(path: string, artifact: Option<Artifact>, problem: string)

  datatype AcceptedEnvironment = Exactly(environment: Environment) | OfRelease

  datatype EvidenceType = EvidenceType(
    id: string, environments: seq<AcceptedEnvironment>, classes: seq<EvidenceClass>, requiredAssertions: seq<AssertionId>,
    maxAgeMinutes: Option<int>, signatureRequired: bool, reviewerRequired: bool, bindsArtifacts: bool)

  datatype Stage = PreCutover | Cutover | PostCutover

  datatype Gate = Gate(
    id: GateId, stage: Stage, dependsOn: seq<GateId>, requiredEvidence: seq<string>, requiredAssertions: seq<AssertionId>,
    requiresCompleteManifest: bool, requiresLegacyMapping: bool)

  datatype LegacyApproval = LegacyApproval(approvedBy: string, approvedAt: int, evidenceId: string)
  datatype Legacy = Legacy(id: LegacyId, retained: bool, approval: Option<LegacyApproval>)

  datatype Policy = Policy(
    policyRevision: string, specVersion: string, digest: string, snapshotMaxAgeMinutes: int,
    evidenceTypes: seq<EvidenceType>, gates: seq<Gate>, legacyGates: seq<Legacy>)

  datatype Role = OperatorRole | ReviewerRole | OwnerSelfReview
  datatype Approval = Approval(role: Role, name: string, lowerName: string, approvedText: string, approvedAt: int, evidenceId: string)

  /** The manifest's fields as a document: known leaves, nulls, lists and objects. */
  datatype Doc = Null | Leaf | ListOf(length: nat) | Fields(fields: FieldList)
  datatype FieldList = NoFields | Field(key: string, value: Doc, rest: FieldList)

  datatype Manifest = Manifest(
    doc: Doc, releaseSha: string, environment: Environment, specVersion: string, policyRevision: string, providerAccounts: nat,
    artifacts: map<string, Option<string>>, evidenceIds: seq<string>, evidenceDigests: map<string, string>,
    approvals: seq<Approval>, recoverySealedAt: Option<int>, contextDigest: string, approvalSetDigest: string)

  /** Everything one evaluation is given. `trustGiven`: a trust record meant for the other mode came along. */
  datatype Input = Input(policy: Policy, manifest: Manifest, files: seq<File>, trustGiven: bool)

  // ------------------------------------------------------------------ schema rules

  predicate MustDependOn(id: GateId, dependency: GateId) {
    if id == R00 then false
    else if id == R10 then dependency < 10
    else if id == R11 then dependency == R00 || dependency == R10
    else if id == R12 then dependency == R00 || dependency == R11
    else dependency == R00
  }

  predicate GateOk(policy: Policy, i: nat)
    requires i < |policy.gates|
  {
    var g := policy.gates[i];
    && g.id == i && g.requiredEvidence != []
    && (forall d :: 0 <= d < GATES && MustDependOn(i, d) ==> d in g.dependsOn)
    && (forall d :: d in g.dependsOn ==> d < i)
    && (R10 <= i ==> g.requiresCompleteManifest) && (g.requiresLegacyMapping <==> i == R00)
  }

  /** The ids are those of the legacy gates, each once, in any order. */
  predicate MapsLegacyOnce(ids: seq<LegacyId>) {
    && |ids| == LEGACY_GATES && (forall i :: 0 <= i < |ids| ==> ids[i] < LEGACY_GATES)
    && forall i, j :: 0 <= i < j < |ids| ==> ids[i] != ids[j]
  }

  function LegacyIds(legacy: seq<Legacy>): (ids: seq<LegacyId>)
    ensures |ids| == |legacy| && forall k :: 0 <= k < |legacy| ==> ids[k] == legacy[k].id
  {
    seq(|legacy|, (k: nat) requires k < |legacy| => legacy[k].id)
  }

  /** What the policy schema asks, as far as evaluation rests on it. */
  predicate PolicyOk(policy: Policy) {
    && MapsLegacyOnce(LegacyIds(policy.legacyGates))
    && |policy.gates| == GATES && (forall i :: 0 <= i < GATES ==> GateOk(policy, i))
    && 0 < policy.snapshotMaxAgeMinutes <= DAY_MINUTES
    && (forall k :: 0 <= k < |policy.evidenceTypes| && policy.evidenceTypes[k].maxAgeMinutes.Some? ==> policy.evidenceTypes[k].maxAgeMinutes.value > 0)
  }

  /** A member of an object. */
  function Member(doc: Doc, key: string): Option<Doc> { if doc.Fields? then FieldOf(doc.fields, key) else None }

  function FieldOf(fields: FieldList, key: string): Option<Doc> {
    match fields
    case NoFields => None
    case Field(k, value, rest) => if k == key then Some(value) else FieldOf(rest, key)
  }

  function FieldCount(fields: FieldList): nat {
    match fields
    case NoFields => 0
    case Field(_, _, rest) => 1 + FieldCount(rest)
  }

  /** The document holds a null under the key exactly when the value is not known. */
  predicate KnownIn(doc: Option<Doc>, key: string, known: bool) {
    doc.Some? && var value := Member(doc.value, key); value.Some? && (value.value == Null <==> !known)
  }

  /** What the manifest schema asks, as far as evaluation rests on it, and what ties its document to the
      fields read from it. */
  predicate ManifestOk(m: Manifest) {
    && (forall name :: name in ARTIFACT_NAMES ==> name in m.artifacts && KnownIn(Member(m.doc, ARTIFACTS), name, m.artifacts[name].Some?))
    && KnownIn(Some(m.doc), RECOVERY, m.recoverySealedAt.Some?)
    && (var accounts := Member(m.doc, ACCOUNTS); accounts.Some? && accounts.value.Fields? && FieldCount(accounts.value.fields) == m.providerAccounts)
    && (forall i, j :: 0 <= i < j < |m.evidenceIds| ==> m.evidenceIds[i] != m.evidenceIds[j])
    && m.evidenceDigests.Keys == (set id | id in m.evidenceIds)
  }

  // ------------------------------------------------------------------ small things

  function When<T>(c: bool, reason: T): seq<T> { if c then [reason] else [] }

  function FindType(types: seq<EvidenceType>, id: string): Option<EvidenceType> {
    if types == [] then None else if types[0].id == id then Some(types[0]) else FindType(types[1..], id)
  }

  predicate Asserts(a: Artifact, id: AssertionId) { exists k :: 0 <= k < |a.assertions| && a.assertions[k].id == id && a.assertions[k].passed }

  function MaxAge(policy: Policy, typeId: string): Option<int> {
    var t := FindType(policy.evidenceTypes, typeId);
    if t.Some? then t.value.maxAgeMinutes else None
  }

  // ------------------------------------------------------------------ one artifact

  function BindingReasons(names: seq<string>, expected: map<string, Option<string>>, actual: map<string, string>): seq<Reason> {
    if names == [] then []
    else
      var name := names[0];
      (if name !in expected || expected[name].None? then [ArtifactUnknown(name)]
       else When(name !in actual || actual[name] != expected[name].value, ArtifactMismatch(name)))
      + BindingReasons(names[1..], expected, actual)
  }

  function AssertionReasons(required: seq<AssertionId>, a: Artifact): seq<Reason> {
    if required == [] then []
    else When(!Asserts(a, required[0]), MissingRequiredAssertion(required[0])) + AssertionReasons(required[1..], a)
  }

  predicate EnvironmentAccepted(t: EvidenceType, manifest: Manifest, environment: Environment) {
    exists k :: 0 <= k < |t.environments| && environment == (if t.environments[k].OfRelease? then manifest.environment else t.environments[k].environment)
  }

  /** Reasons that do not look at the clock: before the clock's, and after. */
  function BindReasons(input: Input, t: EvidenceType, a: Artifact): seq<Reason> {
    var m, p := input.manifest, input.policy;
    When(input.trustGiven, AdmittedModeMismatch)
    + When(a.id !in m.evidenceIds, NotInManifest)
    + When(a.id in m.evidenceIds && (a.id !in m.evidenceDigests || m.evidenceDigests[a.id] != a.digest), EvidenceDigestMismatch)
    + When(a.releaseSha != m.releaseSha, WrongRelease)
    + When(a.policyRevision != p.policyRevision, WrongPolicy)
    + When(a.policyDigest != p.digest, PolicyDigestMismatch)
    + When(a.dataDigest != m.contextDigest, DataDigestMismatch)
    + When(!EnvironmentAccepted(t, m, a.environment), WrongEnvironment)
    + When(a.evidenceClass !in t.classes, WrongEvidenceClass)
    + When(a.evidenceClass != Test && a.environment != Staging && a.environment != Production, NotLiveEnvironment)
    + When(a.evidenceClass == Test && a.environment != Local && a.environment != Ci, TestEnvironmentMismatch)
    + When(a.unredacted, RedactionRequired)
    + (if t.bindsArtifacts then BindingReasons(ARTIFACT_NAMES, m.artifacts, a.digests) else [])
  }

  function ClockReasons(t: EvidenceType, a: Artifact, now: int): seq<Reason> {
    When(a.observedAt > now + FUTURE_SKEW, ObservedInFuture)
    + When(t.maxAgeMinutes.Some? && now - a.observedAt >= Minutes(t.maxAgeMinutes.value), Stale)
    + When(a.expiresAt.Some? && now >= a.expiresAt.value, Expired)
  }

  function TrustReasons(t: EvidenceType, a: Artifact): seq<Reason> {
    When(t.reviewerRequired && a.reviewer.None?, ReviewerMissing)
    + When((t.signatureRequired || a.check != Unsigned) && !a.check.Valid?, SignatureNot(a.check))
    + When(exists k :: 0 <= k < |a.assertions| && !a.assertions[k].passed, AssertionFailed)
    + AssertionReasons(t.requiredAssertions, a)
  }

  /** What an artifact is asked about, in this order. */
  datatype Standing = Binding | Clock | Trust

  const STANDINGS: seq<Standing> := [Binding, Clock, Trust]

  function ReasonsIn(standing: Standing, input: Input, t: EvidenceType, a: Artifact, now: int): seq<Reason> {
    match standing
    case Binding => BindReasons(input, t, a)
    case Clock => ClockReasons(t, a, now)
    case Trust => TrustReasons(t, a)
  }

  function Reasons(standings: seq<Standing>, input: Input, t: EvidenceType, a: Artifact, now: int): seq<Reason> {
    if standings == [] then [] else ReasonsIn(standings[0], input, t, a, now) + Reasons(standings[1..], input, t, a, now)
  }

  /** `assessArtifact`: why the artifact does not count; nothing when it does. */
  function AssessArtifact(input: Input, a: Artifact, now: int): seq<Reason> {
    var t := FindType(input.policy.evidenceTypes, a.evidenceType);
    if t.None? then [UnknownType] else Reasons(STANDINGS, input, t.value, a, now)
  }

  // ------------------------------------------------------------------ all evidence

  datatype Assessed = Assessed(path: string, artifact: Option<Artifact>, reasons: seq<Reason>)

  predicate SameIdElsewhere(files: seq<File>, i: nat)
    requires i < |files|
  {
    files[i].artifact.Some?
    && exists j :: 0 <= j < |files| && j != i && files[j].artifact.Some? && files[j].artifact.value.id == files[i].artifact.value.id
  }

  function AssessFile(input: Input, i: nat, now: int): Assessed
    requires i < |input.files|
  {
    var f := input.files[i];
    if f.artifact.None? then Assessed(f.path, None, [UnreadableFile(f.problem)])
    else Assessed(f.path, f.artifact, AssessArtifact(input, f.artifact.value, now) + When(SameIdElsewhere(input.files, i), DuplicateId))
  }

  /** `assessEvidence`: the first n files, in path order. */
  function Assess(input: Input, n: nat, now: int): (all: seq<Assessed>)
    requires n <= |input.files|
    ensures |all| == n
  {
    if n == 0 then [] else Assess(input, n - 1, now) + [AssessFile(input, n - 1, now)]
  }

  lemma {:induction false} AssessedAt(input: Input, n: nat, i: nat, now: int)
    requires i < n <= |input.files|
    ensures Assess(input, n, now)[i] == AssessFile(input, i, now)
  {
    if i < n - 1 { AssessedAt(input, n - 1, i, now); }
  }

  function CountedOf(all: seq<Assessed>): seq<Artifact> {
    if all == [] then []
    else
      var n := |all| - 1;
      CountedOf(all[..n]) + (if all[n].artifact.Some? && all[n].reasons == [] then [all[n].artifact.value] else [])
  }

  function Counted(input: Input, now: int): seq<Artifact> { CountedOf(Assess(input, |input.files|, now)) }

  // ------------------------------------------------------------------ gaps

  /** `walk`: the paths of nulls, and of empty lists in scope. */
  function Walk(doc: Doc, path: seq<string>): seq<Gap> {
    match doc
    case Null => [UnknownField(path)]
    case Leaf => []
    case ListOf(n) => When(n == 0 && |path| >= 2 && path[0] == SCOPE, UnknownField(path))
    case Fields(fields) => WalkFields(fields, path)
  }

  function WalkFields(fields: FieldList, path: seq<string>): seq<Gap> {
    match fields
    case NoFields => []
    case Field(key, value, rest) => Walk(value, path + [key]) + WalkFields(rest, path)
  }

  predicate HoldsRole(approvals: seq<Approval>, role: Role) {
    exists k :: 0 <= k < |approvals| && approvals[k].role == role && forall j :: 0 <= j < |approvals| && approvals[j].role == role ==> j == k
  }

  predicate SharedName(approvals: seq<Approval>) {
    exists j, k :: 0 <= j < |approvals| && 0 <= k < |approvals| && approvals[j].role == ReviewerRole
                   && approvals[k].role == OperatorRole && approvals[j].lowerName == approvals[k].lowerName
  }

  predicate Placeholder(sha: string) { sha != "" && forall i :: 0 <= i < |sha| ==> sha[i] == '0' }

  /** `manifestGaps`. */
  function ManifestGaps(m: Manifest): seq<Gap> {
    Walk(m.doc, [])
    + When(Placeholder(m.releaseSha), ShaPlaceholder)
    + When(m.providerAccounts == 0, NoProviderAccounts)
    + When(exists k :: 0 <= k < |m.approvals| && m.approvals[k].role == OwnerSelfReview, UnsupportedRole)
    + When(!HoldsRole(m.approvals, OperatorRole), RoleGap(OperatorRole))
    + When(!HoldsRole(m.approvals, ReviewerRole), RoleGap(ReviewerRole))
    + When(SharedName(m.approvals), ReviewerNotSeparate)
  }

  predicate HasId(counted: seq<Artifact>, id: string) { exists k :: 0 <= k < |counted| && counted[k].id == id }

  function EvidenceGaps(ids: seq<string>, counted: seq<Artifact>): seq<Gap> {
    if ids == [] then [] else When(!HasId(counted, ids[0]), EvidenceGap(ids[0])) + EvidenceGaps(ids[1..], counted)
  }

  function FindArtifact(counted: seq<Artifact>, id: string): Option<Artifact> {
    if counted == [] then None else if counted[0].id == id then Some(counted[0]) else FindArtifact(counted[1..], id)
  }

  /** The attestation proves this approval at this time. */
  predicate Attests(m: Manifest, approval: Approval, proof: Option<Artifact>, now: int) {
    && proof.Some? && proof.value.evidenceType == RELEASE_ATTESTATION && proof.value.gate == R10
    && proof.value.attestedEvidenceDigest == Some(m.approvalSetDigest) && proof.value.check == Valid(approval.name)
    && approval.approvedAt <= now && proof.value.observedText == approval.approvedText && Asserts(proof.value, ApprovalBy(approval.role))
  }

  function ApprovalGaps(m: Manifest, approvals: seq<Approval>, counted: seq<Artifact>, now: int): seq<Gap> {
    if approvals == [] then []
    else When(!Attests(m, approvals[0], FindArtifact(counted, approvals[0].evidenceId), now), ApprovalUnverified(approvals[0].role))
         + ApprovalGaps(m, approvals[1..], counted, now)
  }

  predicate SharedEvidence(approvals: seq<Approval>) {
    exists j, k :: 0 <= j < k < |approvals| && approvals[j].evidenceId == approvals[k].evidenceId
  }

  function RecoveryGaps(input: Input, now: int): seq<Gap> {
    var sealed, age := input.manifest.recoverySealedAt, MaxAge(input.policy, RECOVERY_POINT);
    if sealed.None? then []
    else When(sealed.value > now, SealedInFuture)
         + When(age.Some? && now - sealed.value >= Minutes(age.value), RecoveryStale)
  }

  /** What a release is asked about before it counts as complete, in this order. */
  datatype GapSource = OfManifest | OfEvidence | OfApprovals | OfSeparation | OfRecovery

  const GAP_SOURCES: seq<GapSource> := [OfManifest, OfEvidence, OfApprovals, OfSeparation, OfRecovery]

  function GapsIn(source: GapSource, input: Input, counted: seq<Artifact>, now: int): seq<Gap> {
    match source
    case OfManifest => ManifestGaps(input.manifest)
    case OfEvidence => EvidenceGaps(input.manifest.evidenceIds, counted)
    case OfApprovals => ApprovalGaps(input.manifest, input.manifest.approvals, counted, now)
    case OfSeparation => When(SharedEvidence(input.manifest.approvals), EvidenceNotSeparate)
    case OfRecovery => RecoveryGaps(input, now)
  }

  function Gaps(sources: seq<GapSource>, input: Input, counted: seq<Artifact>, now: int): seq<Gap> {
    if sources == [] then [] else GapsIn(sources[0], input, counted, now) + Gaps(sources[1..], input, counted, now)
  }

  // ------------------------------------------------------------------ gates

  function MappingGate(gates: seq<Gate>): Option<GateId> {
    if gates == [] then None else if gates[0].requiresLegacyMapping then Some(gates[0].id) else MappingGate(gates[1..])
  }

  predicate ApprovesLegacy(input: Input, legacy: Legacy, a: Artifact)
    requires legacy.approval.Some?
  {
    var approval := legacy.approval.value;
    && a.id == approval.evidenceId && Some(a.gate) == MappingGate(input.policy.gates) && a.evidenceType == DECISION_RECORD
    && a.check == Valid(approval.approvedBy) && approval.approvedAt <= a.observedAt
    && Asserts(a, LegacyDecision(legacy.id))
  }

  predicate LegacyApproved(input: Input, legacy: Legacy, counted: seq<Artifact>, now: int) {
    && legacy.approval.Some? && legacy.approval.value.approvedAt <= now
    && exists k :: 0 <= k < |counted| && ApprovesLegacy(input, legacy, counted[k])
  }

  function LegacyBlockers(input: Input, legacy: seq<Legacy>, counted: seq<Artifact>, now: int): seq<Blocker> {
    if legacy == [] then []
    else When(!legacy[0].retained && !LegacyApproved(input, legacy[0], counted, now), LegacyMappingUnapproved(legacy[0].id))
         + LegacyBlockers(input, legacy[1..], counted, now)
  }

  function DependencyBlockers(dependsOn: seq<GateId>, passed: set<GateId>): seq<Blocker> {
    if dependsOn == [] then []
    else When(dependsOn[0] !in passed, DependencyBlocked(dependsOn[0])) + DependencyBlockers(dependsOn[1..], passed)
  }

  predicate Offers(counted: seq<Artifact>, gate: GateId, evidenceType: string) {
    exists k :: 0 <= k < |counted| && counted[k].gate == gate && counted[k].evidenceType == evidenceType
  }

  function EvidenceBlockers(required: seq<string>, counted: seq<Artifact>, gate: GateId): seq<Blocker> {
    if required == [] then []
    else When(!Offers(counted, gate, required[0]), MissingEvidence(required[0])) + EvidenceBlockers(required[1..], counted, gate)
  }

  predicate Proves(counted: seq<Artifact>, gate: GateId, assertion: AssertionId) {
    exists k :: 0 <= k < |counted| && counted[k].gate == gate && Asserts(counted[k], assertion)
  }

  function AssertionBlockers(required: seq<AssertionId>, counted: seq<Artifact>, gate: GateId): seq<Blocker> {
    if required == [] then []
    else When(!Proves(counted, gate, required[0]), MissingAssertion(required[0])) + AssertionBlockers(required[1..], counted, gate)
  }

  /** What a gate is asked about, in this order. */
  datatype Aspect = Revisions | Deployment | Dependencies | Evidence | Checks | Completeness | LegacyDecisions

  const ASPECTS: seq<Aspect> := [Revisions, Deployment, Dependencies, Evidence, Checks, Completeness, LegacyDecisions]

  function BlockersIn(aspect: Aspect, input: Input, g: Gate, counted: seq<Artifact>, gaps: seq<Gap>, passed: set<GateId>, now: int): seq<Blocker> {
    var m, p := input.manifest, input.policy;
    match aspect
    case Revisions => When(m.policyRevision != p.policyRevision, PolicyRevisionMismatch) + When(m.specVersion != p.specVersion, SpecVersionMismatch)
    case Deployment =>
      When(m.environment != Staging && m.environment != Production, NonDeployedRelease)
      + When(g.stage == PostCutover && m.environment != Production, ProductionRequired)
    case Dependencies => DependencyBlockers(g.dependsOn, passed)
    case Evidence => EvidenceBlockers(g.requiredEvidence, counted, g.id)
    case Checks => AssertionBlockers(g.requiredAssertions, counted, g.id)
    case Completeness => When(g.requiresCompleteManifest && gaps != [], ManifestIncomplete)
    case LegacyDecisions => if g.requiresLegacyMapping then LegacyBlockers(input, p.legacyGates, counted, now) else []
  }

  /** Why the gate is blocked, given which earlier gates passed. */
  function Blockers(aspects: seq<Aspect>, input: Input, g: Gate, counted: seq<Artifact>, gaps: seq<Gap>, passed: set<GateId>, now: int): seq<Blocker> {
    if aspects == [] then []
    else BlockersIn(aspects[0], input, g, counted, gaps, passed, now) + Blockers(aspects[1..], input, g, counted, gaps, passed, now)
  }

  datatype GateReport = GateReport(id: GateId, stage: Stage, pass: bool, blockers: seq<Blocker>, evidenceIds: seq<string>)

  function IdsOffered(counted: seq<Artifact>, gate: GateId): seq<string> {
    if counted == [] then []
    else
      var n := |counted| - 1;
      IdsOffered(counted[..n], gate) + (if counted[n].gate == gate then [counted[n].id] else [])
  }

  function Judge(input: Input, g: Gate, counted: seq<Artifact>, gaps: seq<Gap>, passed: set<GateId>, now: int): GateReport {
    var blockers := Blockers(ASPECTS, input, g, counted, gaps, passed, now);
    GateReport(g.id, g.stage, blockers == [], blockers, IdsOffered(counted, g.id))
  }

  function PassedIn(reports: seq<GateReport>): set<GateId> {
    if reports == [] then {}
    else
      var n := |reports| - 1;
      PassedIn(reports[..n]) + (if reports[n].pass then {reports[n].id} else {})
  }

  /** The first n gates, each judged by the status of those before it. */
  function Judged(input: Input, counted: seq<Artifact>, gaps: seq<Gap>, n: nat, now: int): (reports: seq<GateReport>)
    requires n <= |input.policy.gates|
    ensures |reports| == n
  {
    if n == 0 then []
    else
      var before := Judged(input, counted, gaps, n - 1, now);
      before + [Judge(input, input.policy.gates[n - 1], counted, gaps, PassedIn(before), now)]
  }

  // ------------------------------------------------------------------ expiry

  function Min(a: int, b: int): int { if a < b then a else b }

  function ArtifactLimit(policy: Policy, a: Artifact, limit: int): int {
    var age := MaxAge(policy, a.evidenceType);
    var aged := if age.Some? then Min(limit, a.observedAt + Minutes(age.value)) else limit;
    if a.expiresAt.Some? then Min(aged, a.expiresAt.value) else aged
  }

  function EvidenceLimit(policy: Policy, counted: seq<Artifact>, limit: int): int {
    if counted == [] then limit
    else ArtifactLimit(policy, counted[|counted| - 1], EvidenceLimit(policy, counted[..|counted| - 1], limit))
  }

  function RecoveryLimit(input: Input, limit: int, now: int): int {
    var sealed, age := input.manifest.recoverySealedAt, MaxAge(input.policy, RECOVERY_POINT);
    if sealed.Some? && age.Some? && sealed.value + Minutes(age.value) > now then Min(limit, sealed.value + Minutes(age.value)) else limit
  }

  /** The earliest moment anything the snapshot rests on may stop holding. */
  function Expiry(input: Input, counted: seq<Artifact>, now: int): int {
    RecoveryLimit(input, EvidenceLimit(input.policy, counted, now + Minutes(input.policy.snapshotMaxAgeMinutes)), now)
  }

  // ------------------------------------------------------------------ the report

  datatype EvidenceRow = EvidenceRow(path: string, artifact: Option<Artifact>, counted: bool, reasons: seq<Reason>)

  /** One row of the legacy table. */
  datatype LegacyRow = LegacyRow(id: LegacyId, approved: bool)

  datatype Report = Report(
    evaluatedAt: int, expiresAt: int, environment: Environment, gaps: seq<Gap>, pass: bool,
    gates: seq<GateReport>, evidence: seq<EvidenceRow>, legacy: seq<LegacyRow>)

  function LegacyRows(input: Input, counted: seq<Artifact>, now: int): (rows: seq<LegacyRow>)
    ensures |rows| == |input.policy.legacyGates|
    ensures forall k :: 0 <= k < |rows| ==> rows[k].id == input.policy.legacyGates[k].id
  {
    var legacy := input.policy.legacyGates;
    seq(|legacy|, (k: nat) requires k < |legacy| =>
      LegacyRow(legacy[k].id, legacy[k].retained || LegacyApproved(input, legacy[k], counted, now)))
  }

  function RowIds(rows: seq<LegacyRow>): (ids: seq<LegacyId>)
    ensures |ids| == |rows| && forall k :: 0 <= k < |rows| ==> ids[k] == rows[k].id
  {
    seq(|rows|, (k: nat) requires k < |rows| => rows[k].id)
  }

  function RowOf(a: Assessed): EvidenceRow { EvidenceRow(a.path, a.artifact, a.artifact.Some? && a.reasons == [], a.reasons) }

  function RowsOf(all: seq<Assessed>): (rows: seq<EvidenceRow>)
    ensures |rows| == |all|
  {
    if all == [] then [] else RowsOf(all[..|all| - 1]) + [RowOf(all[|all| - 1])]
  }

  lemma {:induction false} RowAt(all: seq<Assessed>, i: nat)
    requires i < |all|
    ensures RowsOf(all)[i] == RowOf(all[i])
  {
    if i < |all| - 1 { RowAt(all[..|all| - 1], i); }
  }

  predicate AllPass(gates: seq<GateReport>) { forall i :: 0 <= i < |gates| ==> gates[i].pass }

  function ReportFrom(input: Input, all: seq<Assessed>, gaps: seq<Gap>, now: int): Report {
    var counted := CountedOf(all);
    var gates := Judged(input, counted, gaps, |input.policy.gates|, now);
    Report(now, Expiry(input, counted, now), input.manifest.environment, gaps, AllPass(gates), gates, RowsOf(all),
           LegacyRows(input, counted, now))
  }

  /** The readiness snapshot for these inputs at this time. */
  function ReportOf(input: Input, now: int): Report {
    ReportFrom(input, Assess(input, |input.files|, now), Gaps(GAP_SOURCES, input, Counted(input, now), now), now)
  }

  predicate GateReportOk(r: Report, i: nat)
    requires i < |r.gates|
  {
    var g := r.gates[i];
    && g.id == i && (g.pass <==> g.blockers == []) && (g.pass ==> g.evidenceIds != [])
    && forall id :: id in g.evidenceIds ==> Backed(r, g.id, id)
  }

  predicate Backed(r: Report, gate: GateId, id: string) {
    exists k :: 0 <= k < |r.evidence| && r.evidence[k].counted && r.evidence[k].artifact.Some?
                && r.evidence[k].artifact.value.id == id && r.evidence[k].artifact.value.gate == gate
  }

  /** The readiness report's own cross-field rules, but for the one on acceptance. */
  predicate WellFormed(r: Report) {
    && |r.gates| == GATES && (forall i :: 0 <= i < GATES ==> GateReportOk(r, i))
    && (r.pass <==> forall i :: 0 <= i < |r.gates| ==> r.gates[i].pass)
    && 0 < r.expiresAt - r.evaluatedAt <= Minutes(DAY_MINUTES)
    && (forall k :: 0 <= k < |r.evidence| ==> RowOk(r.evidence[k]))
    && MapsLegacyOnce(RowIds(r.legacy))
  }

  /** Counted evidence is readable and has no reason against it; uncounted evidence has one. */
  predicate RowOk(row: EvidenceRow) {
    (row.counted ==> row.artifact.Some? && row.reasons == []) && (!row.counted ==> row.reasons != [])
  }

  /** Acceptance needs a production release without gaps. */
  predicate AcceptanceOk(r: Report) { r.pass ==> r.environment == Production && r.gaps == [] }

  predicate ReportOk(r: Report) { WellFormed(r) && AcceptanceOk(r) }

  datatype Outcome = Reported(report: Report) | InputError(what: string)

  // ------------------------------------------------------------------ the source's loops

  function Mentions(files: seq<File>, n: nat, id: string): nat
    requires n <= |files|
  {
    if n == 0 then 0
    else Mentions(files, n - 1, id) + if files[n - 1].artifact.Some? && files[n - 1].artifact.value.id == id then 1 else 0
  }

  lemma {:induction false} MentionsCount(files: seq<File>, n: nat, id: string)
    requires n <= |files|
    ensures Mentions(files, n, id) >= 1 <==> exists j :: 0 <= j < n && files[j].artifact.Some? && files[j].artifact.value.id == id
    ensures Mentions(files, n, id) >= 2 <==> exists j, k :: 0 <= j < k < n && files[j].artifact.Some? && files[k].artifact.Some?
                                                           && files[j].artifact.value.id == id == files[k].artifact.value.id
  {
    if n > 0 { MentionsCount(files, n - 1, id); }
  }

  lemma DuplicateIsCounted(files: seq<File>, i: nat)
    requires i < |files| && files[i].artifact.Some?
    ensures SameIdElsewhere(files, i) <==> Mentions(files, |files|, files[i].artifact.value.id) > 1
  {
    MentionsCount(files, |files|, files[i].artifact.value.id);
  }

  function BeforeDuplicates(input: Input, i: nat, now: int): Assessed
    requires i < |input.files|
  {
    var f := input.files[i];
    Assessed(f.path, f.artifact, if f.artifact.None? then [UnreadableFile(f.problem)] else AssessArtifact(input, f.artifact.value, now))
  }

  lemma MarkedIsAssessed(input: Input, i: nat, now: int)
    requires i < |input.files|
    ensures var r := BeforeDuplicates(input, i, now);
            AssessFile(input, i, now) == if SameIdElsewhere(input.files, i) then r.(reasons := r.reasons + [DuplicateId]) else r
  {
  }

  /** Assesses every file, counts ids, and marks those that are not unique. */
  method AssessEvidence(input: Input, now: int) returns (all: seq<Assessed>)
    ensures all == Assess(input, |input.files|, now)
  {
    var first := FirstPass(input, now);
    var counts := CountIds(input.files);
    all := [];
    for i := 0 to |first|
      invariant all == Assess(input, i, now)
    {
      var marked := Mark(input, i, now, first[i], counts);
      all := all + [marked];
    }
  }

  method FirstPass(input: Input, now: int) returns (all: seq<Assessed>)
    ensures |all| == |input.files| && forall k :: 0 <= k < |all| ==> all[k] == BeforeDuplicates(input, k, now)
  {
    all := [];
    for i := 0 to |input.files|
      invariant |all| == i && forall k :: 0 <= k < i ==> all[k] == BeforeDuplicates(input, k, now)
    {
      var f := input.files[i];
      all := all + [Assessed(f.path, f.artifact, if f.artifact.None? then [UnreadableFile(f.problem)] else AssessArtifact(input, f.artifact.value, now))];
    }
  }

  /** Two artifacts with one id make the binding ambiguous: neither counts. */
  method Mark(input: Input, i: nat, now: int, item: Assessed, counts: map<string, nat>) returns (marked: Assessed)
    requires i < |input.files| && item == BeforeDuplicates(input, i, now)
    requires forall id :: (if id in counts then counts[id] else 0) == Mentions(input.files, |input.files|, id)
    ensures marked == AssessFile(input, i, now)
  {
    marked := item;
    MarkedIsAssessed(input, i, now);
    if item.artifact.Some? {
      DuplicateIsCounted(input.files, i);
      var id := item.artifact.value.id;
      if id in counts && counts[id] > 1 { marked := item.(reasons := item.reasons + [DuplicateId]); }
    }
  }

  method CountIds(files: seq<File>) returns (counts: map<string, nat>)
    ensures forall id :: (if id in counts then counts[id] else 0) == Mentions(files, |files|, id)
  {
    counts := map[];
    for i := 0 to |files|
      invariant forall id :: (if id in counts then counts[id] else 0) == Mentions(files, i, id)
    {
      if files[i].artifact.Some? {
        var id := files[i].artifact.value.id;
        counts := counts[id := (if id in counts then counts[id] else 0) + 1];
      }
    }
  }

  method CountedArtifacts(all: seq<Assessed>) returns (counted: seq<Artifact>)
    ensures counted == CountedOf(all)
  {
    counted := [];
    for i := 0 to |all|
      invariant counted == CountedOf(all[..i])
    {
      assert all[..i + 1][..i] == all[..i];
      if all[i].artifact.Some? && all[i].reasons == [] { counted := counted + [all[i].artifact.value]; }
    }
    assert all[..|all|] == all;
  }

  method ExpiryTime(input: Input, counted: seq<Artifact>, now: int) returns (expiry: int)
    ensures expiry == Expiry(input, counted, now)
  {
    expiry := now + Minutes(input.policy.snapshotMaxAgeMinutes);
    for i := 0 to |counted|
      invariant expiry == EvidenceLimit(input.policy, counted[..i], now + Minutes(input.policy.snapshotMaxAgeMinutes))
    {
      assert counted[..i + 1][..i] == counted[..i];
      var age := MaxAge(input.policy, counted[i].evidenceType);
      if age.Some? { expiry := Min(expiry, counted[i].observedAt + Minutes(age.value)); }
      if counted[i].expiresAt.Some? { expiry := Min(expiry, counted[i].expiresAt.value); }
    }
    assert counted[..|counted|] == counted;
    var sealed, recoveryAge := input.manifest.recoverySealedAt, MaxAge(input.policy, RECOVERY_POINT);
    if sealed.Some? && recoveryAge.Some? {
      var expires := sealed.value + Minutes(recoveryAge.value);
      if expires > now { expiry := Min(expiry, expires); }
    }
  }

  lemma NextReport(gates: seq<GateReport>, report: GateReport)
    ensures PassedIn(gates + [report]) == if report.pass then PassedIn(gates) + {report.id} else PassedIn(gates)
    ensures AllPass(gates + [report]) <==> AllPass(gates) && report.pass
  {
    assert (gates + [report])[..|gates|] == gates;
    if AllPass(gates + [report]) {
      forall i | 0 <= i < |gates| ensures gates[i].pass { assert (gates + [report])[i] == gates[i]; }
      assert (gates + [report])[|gates|] == report;
    }
  }

  /** The gates in order, each looking at the status of those before it. */
  method JudgeGates(input: Input, counted: seq<Artifact>, gaps: seq<Gap>, now: int) returns (gates: seq<GateReport>, verdict: bool)
    ensures gates == Judged(input, counted, gaps, |input.policy.gates|, now) && verdict == AllPass(gates)
  {
    gates, verdict := [], true;
    var passed: set<GateId> := {};
    for i := 0 to |input.policy.gates|
      invariant gates == Judged(input, counted, gaps, i, now) && passed == PassedIn(gates) && verdict == AllPass(gates)
    {
      var report := Judge(input, input.policy.gates[i], counted, gaps, passed, now);
      NextReport(gates, report);
      gates := gates + [report];
      passed := if report.pass then passed + {report.id} else passed;
      verdict := verdict && report.pass;
    }
  }

  predicate UniquePaths(files: seq<File>) { forall i, j :: 0 <= i < j < |files| ==> files[i].path != files[j].path }

  /** `evaluateRelease`: the report, or an error for inputs and for a report its own schema refuses. */
  method EvaluateRelease(input: Input, now: int) returns (outcome: Outcome)
    ensures outcome.Reported? <==>
              PolicyOk(input.policy) && ManifestOk(input.manifest) && UniquePaths(input.files) && ReportOk(ReportOf(input, now))
    ensures outcome.Reported? ==> outcome.report == ReportOf(input, now)
  {
    if !PolicyOk(input.policy) { return InputError("gate policy"); }
    if !ManifestOk(input.manifest) { return InputError("release manifest"); }
    if !UniquePaths(input.files) { return InputError("evidence paths"); }
    var all := AssessEvidence(input, now);
    var gaps := Gaps(GAP_SOURCES, input, CountedOf(all), now);
    var report := BuildReport(input, all, gaps, now);
    outcome := if ReportOk(report) then Reported(report) else InputError("readiness report");
  }

  method BuildReport(input: Input, all: seq<Assessed>, gaps: seq<Gap>, now: int) returns (report: Report)
    ensures report == ReportFrom(input, all, gaps, now)
  {
    var counted := CountedArtifacts(all);
    var gates, verdict := JudgeGates(input, counted, gaps, now);
    var expiry := ExpiryTime(input, counted, now);
    report := Report(now, expiry, input.manifest.environment, gaps, verdict, gates, RowsOf(all), LegacyRows(input, counted, now));
  }
}
