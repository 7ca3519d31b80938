/** A release for staging with every gate passing: the one case in which evaluation refuses its own report. */
module ReadinessExample {
  import opened Options
  import opened ReleaseGates
  import opened Readiness

  const NOW := 1_700_000_000_000
  const CHECK := "check"
  /** One check for each gate, and two attestations. */
  const FILES := GATES + 2

  /** What the example leaves open: the assertions a policy asks of every gate's evidence, the legacy
      obligations it retains, the document of the manifest, and all texts: the commit, the revision, the
      digest of each thing named, the moment of evaluation as written, and the two approvers in lower case. */
  datatype Setting = Setting(
    checks: seq<AssertionId>, legacy: seq<Legacy>, doc: Doc,
    sha: string, revision: string, digest: string -> string, at: string, operator: string, reviewer: string)

  /** Every legacy gate is mapped once, as an obligation that is retained. */
  predicate AllRetained(legacy: seq<Legacy>) {
    MapsLegacyOnce(LegacyIds(legacy)) && forall k :: 0 <= k < |legacy| ==> legacy[k].retained
  }

  /** Nothing in the document is unknown, and it is the manifest's own. */
  predicate DocumentFits(doc: Doc) {
    && Walk(doc, []) == [] && KnownIn(Some(doc), RECOVERY, true)
    && (forall name :: name in ARTIFACT_NAMES ==> KnownIn(Member(doc, ARTIFACTS), name, true))
    && var accounts := Member(doc, ACCOUNTS); accounts.Some? && accounts.value.Fields? && FieldCount(accounts.value.fields) == 1
  }

  /** Different things have different digests. */
  ghost predicate Tells(digest: string -> string) { forall a, b :: digest(a) == digest(b) ==> a == b }

  ghost predicate SettingOk(d: Setting) {
    AllRetained(d.legacy) && Tells(d.digest) && d.sha != "" && !Placeholder(d.sha) && DocumentFits(d.doc) && d.operator != d.reviewer
  }

  // What is digested beside the four artifacts and the pieces of evidence, which go by their own names.
  const POLICY := "policy"
  const CONTEXT := "context"
  const APPROVAL_SET := "approvals"

  function Types(d: Setting): seq<EvidenceType> {
    [EvidenceType(CHECK, [OfRelease], [LiveRun], d.checks, None, true, false, false),
     EvidenceType(RELEASE_ATTESTATION, [OfRelease], [LiveRun], d.checks, None, true, false, false)]
  }

  /** Ids of different lengths. */
  function IdOf(i: nat): (id: string)
    ensures |id| == i + 3
  {
    seq(i + 3, _ => 'e')
  }

  function RoleOf(i: nat): Role { if i == GATES then OperatorRole else ReviewerRole }

  function NameOf(d: Setting, i: nat): string { if i == GATES then d.operator else d.reviewer }

  /** Signed, and observed just now. */
  function Proof(d: Setting, i: nat): Artifact {
    Artifact(IdOf(i), if i < GATES then CHECK else RELEASE_ATTESTATION, if i < GATES then i else R10, Staging, LiveRun,
             d.sha, map[], d.revision, d.digest(POLICY), d.digest(CONTEXT), if i < GATES then None else Some(d.digest(APPROVAL_SET)),
             d.at, NOW, None, None, [Assertion(ApprovalBy(RoleOf(i)), true)] + AllProven(d.checks), false, Valid(NameOf(d, i)), d.digest(IdOf(i)))
  }

  function AllProven(checks: seq<AssertionId>): seq<Assertion> {
    seq(|checks|, k requires 0 <= k < |checks| => Assertion(checks[k], true))
  }

  function ApprovalOf(d: Setting, i: nat): Approval { Approval(RoleOf(i), NameOf(d, i), NameOf(d, i), d.at, NOW, IdOf(i)) }

  function GateFor(d: Setting, i: nat): Gate { Gate(i, PreCutover, seq(i, (k: nat) => k), [CHECK], d.checks, true, i == R00) }

  function ExamplePolicy(d: Setting): Policy {
    Policy(d.revision, d.revision, d.digest(POLICY), DAY_MINUTES, Types(d), seq(GATES, (i: nat) => GateFor(d, i)), d.legacy)
  }

  function Ids(): seq<string> { seq(FILES, (i: nat) => IdOf(i)) }

  function StagingManifest(d: Setting): Manifest {
    Manifest(d.doc, d.sha, Staging, d.revision, d.revision, 1, map name | name in ARTIFACT_NAMES :: Some(d.digest(name)), Ids(),
             map id | id in Ids() :: d.digest(id), Approvals(d), Some(NOW), d.digest(CONTEXT), d.digest(APPROVAL_SET))
  }

  function Example(d: Setting): Input {
    Input(ExamplePolicy(d), StagingManifest(d), seq(FILES, (i: nat) => File(IdOf(i), Some(Proof(d, i)), "")), false)
  }

  lemma PolicyIsOk(d: Setting)
    requires AllRetained(d.legacy)
    ensures PolicyOk(ExamplePolicy(d)) && !AnyPostCutover(ExamplePolicy(d)) && UniquePaths(Example(d).files)
  {
    forall i | 0 <= i < GATES ensures GateOk(ExamplePolicy(d), i) {
      forall e | 0 <= e < GATES && MustDependOn(i, e) ensures e in ExamplePolicy(d).gates[i].dependsOn {
        assert ExamplePolicy(d).gates[i].dependsOn[e] == e;
      }
    }
    forall i, j | 0 <= i < j < FILES ensures Example(d).files[i].path != Example(d).files[j].path {
      assert |IdOf(i)| != |IdOf(j)|;
    }
  }

  lemma ProofAsserts(d: Setting, i: nat, check: AssertionId)
    requires check in d.checks
    ensures Asserts(Proof(d, i), check)
  {
    var k :| 0 <= k < |d.checks| && d.checks[k] == check;
    assert Proof(d, i).assertions[k + 1] == Assertion(check, true);
  }

  lemma {:induction false} NoAssertionLacks(required: seq<AssertionId>, a: Artifact)
    requires forall r :: r in required ==> Asserts(a, r)
    ensures AssertionReasons(required, a) == []
  {
    if required != [] {
      assert required == [required[0]] + required[1..];
      NoAssertionLacks(required[1..], a);
    }
  }

  lemma TypesAreTold(d: Setting, i: nat)
    ensures FindType(Types(d), if i < GATES then CHECK else RELEASE_ATTESTATION) == Some(Types(d)[if i < GATES then 0 else 1])
    ensures FindType(Types(d), RECOVERY_POINT) == None
  {
    var types := Types(d);
    assert CHECK[0] == 'c' && RELEASE_ATTESTATION[2] == 'l' && RECOVERY_POINT[0] == 'r' && RECOVERY_POINT[2] == 'c';
    assert types[1..] == [types[1]] && types[1..][1..] == [];
    assert FindType([], RECOVERY_POINT) == None && FindType(types[1..], RECOVERY_POINT) == None;
    assert FindType(types[1..], RELEASE_ATTESTATION) == Some(types[1]);
  }

  lemma ProofIsBound(d: Setting, i: nat)
    requires i < FILES
    ensures BindReasons(Example(d), Types(d)[if i < GATES then 0 else 1], Proof(d, i)) == []
  {
    var kind := Types(d)[if i < GATES then 0 else 1];
    assert Ids()[i] == Proof(d, i).id;
    assert kind.environments[0] == OfRelease && EnvironmentAccepted(kind, StagingManifest(d), Staging);
  }

  lemma ProofIsTrusted(d: Setting, i: nat)
    requires i < FILES
    ensures TrustReasons(Types(d)[if i < GATES then 0 else 1], Proof(d, i)) == []
  {
    forall r | r in d.checks ensures Asserts(Proof(d, i), r) { ProofAsserts(d, i, r); }
    NoAssertionLacks(d.checks, Proof(d, i));
  }

  lemma ProofStands(d: Setting, i: nat)
    requires i < FILES
    ensures AssessArtifact(Example(d), Proof(d, i), NOW) == []
  {
    var kind := Types(d)[if i < GATES then 0 else 1];
    TypesAreTold(d, i);
    ProofIsBound(d, i);
    ProofIsTrusted(d, i);
    ClockIsQuiet(kind, Proof(d, i), NOW);
    NoReason(Example(d), kind, Proof(d, i), NOW);
  }

  lemma IdsDiffer(i: nat, j: nat)
    requires i != j
    ensures IdOf(i) != IdOf(j)
  {
    assert |IdOf(i)| != |IdOf(j)|;
  }

  lemma FileAt(d: Setting, i: nat)
    requires i < FILES
    ensures |Example(d).files| == FILES && Example(d).files[i] == File(IdOf(i), Some(Proof(d, i)), "")
  {
  }

  lemma OnlyOnce(d: Setting, i: nat)
    requires i < FILES
    ensures |Example(d).files| == FILES && !SameIdElsewhere(Example(d).files, i)
  {
    FileAt(d, i);
    forall j | 0 <= j < FILES && j != i ensures Example(d).files[j].artifact.value.id != Proof(d, i).id {
      FileAt(d, j);
      IdsDiffer(i, j);
    }
  }

  lemma ProofCounts(d: Setting, i: nat)
    requires i < FILES
    ensures Proof(d, i) in Counted(Example(d), NOW)
  {
    ProofStands(d, i);
    FileAt(d, i);
    OnlyOnce(d, i);
    CountedAgain(Example(d), NOW, i);
  }

  predicate Has(counted: seq<Artifact>, a: Artifact) { exists k :: 0 <= k < |counted| && counted[k] == a }

  ghost predicate AllCount(d: Setting, counted: seq<Artifact>) { forall i :: 0 <= i < FILES ==> Has(counted, Proof(d, i)) }

  ghost predicate IdsTell(counted: seq<Artifact>) { forall a, b :: a in counted && b in counted && a.id == b.id ==> a == b }

  lemma EverythingCounts(d: Setting)
    ensures AllCount(d, Counted(Example(d), NOW)) && IdsTell(Counted(Example(d), NOW))
  {
    var input := Example(d);
    forall i | 0 <= i < FILES ensures Has(Counted(input, NOW), Proof(d, i)) { ProofCounts(d, i); }
    forall a, b | a in Counted(input, NOW) && b in Counted(input, NOW) && a.id == b.id ensures a == b { CountedIdsDiffer(input, NOW, a, b); }
  }

  lemma {:induction false} NoEvidenceGap(ids: seq<string>, counted: seq<Artifact>)
    requires forall m :: 0 <= m < |ids| ==> HasId(counted, ids[m])
    ensures EvidenceGaps(ids, counted) == []
  {
    if ids != [] {
      assert HasId(counted, ids[0]);
      assert forall m :: 0 <= m < |ids[1..]| ==> ids[1..][m] == ids[m + 1];
      NoEvidenceGap(ids[1..], counted);
    }
  }

  lemma Attested(d: Setting, counted: seq<Artifact>, i: nat)
    requires Has(counted, Proof(d, i)) && IdsTell(counted) && GATES <= i < FILES
    ensures Attests(StagingManifest(d), ApprovalOf(d, i), FindArtifact(counted, IdOf(i)), NOW)
  {
    FoundIsIn(counted, IdOf(i));
    assert Proof(d, i) in counted;
    assert FindArtifact(counted, IdOf(i)) == Some(Proof(d, i));
    assert Proof(d, i).assertions[0].id == ApprovalBy(RoleOf(i));
  }

  lemma IdIsThere(d: Setting, counted: seq<Artifact>, i: nat)
    requires Has(counted, Proof(d, i))
    ensures HasId(counted, IdOf(i))
  {
    var k :| 0 <= k < |counted| && counted[k] == Proof(d, i);
    assert counted[k].id == IdOf(i);
  }

  lemma EvidenceIsComplete(d: Setting, counted: seq<Artifact>)
    requires AllCount(d, counted)
    ensures EvidenceGaps(Ids(), counted) == []
  {
    forall i | 0 <= i < FILES ensures HasId(counted, IdOf(i)) { IdIsThere(d, counted, i); }
    NoEvidenceGap(Ids(), counted);
  }

  lemma {:induction false} NoApprovalGap(m: Manifest, approvals: seq<Approval>, counted: seq<Artifact>)
    requires forall a :: a in approvals ==> Attests(m, a, FindArtifact(counted, a.evidenceId), NOW)
    ensures ApprovalGaps(m, approvals, counted, NOW) == []
  {
    if approvals != [] {
      assert approvals == [approvals[0]] + approvals[1..];
      NoApprovalGap(m, approvals[1..], counted);
    }
  }

  function Approvals(d: Setting): seq<Approval> { [ApprovalOf(d, GATES), ApprovalOf(d, GATES + 1)] }

  lemma ApprovalsAreProven(d: Setting, counted: seq<Artifact>)
    requires AllCount(d, counted) && IdsTell(counted)
    ensures ApprovalGaps(StagingManifest(d), Approvals(d), counted, NOW) == []
  {
    Attested(d, counted, GATES);
    Attested(d, counted, GATES + 1);
    NoApprovalGap(StagingManifest(d), Approvals(d), counted);
  }

  lemma EvidenceIsSeparate(d: Setting)
    ensures !SharedEvidence(Approvals(d))
  {
    IdsDiffer(GATES, GATES + 1);
  }

  lemma NoGapLeft(input: Input, m: Manifest, ids: seq<string>, approvals: seq<Approval>, counted: seq<Artifact>)
    requires input.manifest == m && m.evidenceIds == ids && m.approvals == approvals
    requires ManifestGaps(m) == [] && EvidenceGaps(ids, counted) == []
    requires ApprovalGaps(m, approvals, counted, NOW) == [] && !SharedEvidence(approvals) && RecoveryGaps(input, NOW) == []
    ensures Gaps(GAP_SOURCES, input, counted, NOW) == []
  {
    NoGapIn(GAP_SOURCES, input, counted, NOW);
    forall k | 0 <= k < |GAP_SOURCES| ensures GapsIn(GAP_SOURCES[k], input, counted, NOW) == [] { }
  }

  lemma RecoveryIsSealed(d: Setting)
    ensures RecoveryGaps(Example(d), NOW) == []
  {
    TypesAreTold(d, 0);
  }

  lemma NoGaps(d: Setting, counted: seq<Artifact>)
    requires SettingOk(d) && AllCount(d, counted) && IdsTell(counted)
    ensures Gaps(GAP_SOURCES, Example(d), counted, NOW) == []
  {
    EvidenceIsComplete(d, counted);
    ApprovalsAreProven(d, counted);
    EvidenceIsSeparate(d);
    ManifestIsComplete(d);
    RecoveryIsSealed(d);
    NoGapLeft(Example(d), StagingManifest(d), Ids(), Approvals(d), counted);
  }

  /** The manifest and its document agree. */
  lemma ManifestIsOk(d: Setting)
    requires SettingOk(d)
    ensures ManifestOk(StagingManifest(d))
  {
    forall i, j | 0 <= i < j < FILES ensures Ids()[i] != Ids()[j] {
      assert |IdOf(i)| != |IdOf(j)|;
    }
  }

  lemma NoManifestGap(m: Manifest, a: Approval, b: Approval)
    requires m.approvals == [a, b] && a.role == OperatorRole && b.role == ReviewerRole && a.lowerName != b.lowerName
    requires Walk(m.doc, []) == [] && !Placeholder(m.releaseSha) && m.providerAccounts > 0
    ensures ManifestGaps(m) == []
  {
    assert m.approvals[0] == a && m.approvals[1] == b;
    assert HoldsRole(m.approvals, OperatorRole) && HoldsRole(m.approvals, ReviewerRole);
  }

  lemma ManifestIsComplete(d: Setting)
    requires SettingOk(d)
    ensures ManifestGaps(StagingManifest(d)) == []
  {
    NoManifestGap(StagingManifest(d), ApprovalOf(d, GATES), ApprovalOf(d, GATES + 1));
  }

  lemma {:induction false} NoDependencyBlocks(dependsOn: seq<GateId>, passed: set<GateId>)
    requires forall d :: d in dependsOn ==> d in passed
    ensures DependencyBlockers(dependsOn, passed) == []
  {
    if dependsOn != [] {
      assert dependsOn == [dependsOn[0]] + dependsOn[1..];
      NoDependencyBlocks(dependsOn[1..], passed);
    }
  }

  lemma {:induction false} NoEvidenceBlocks(required: seq<string>, counted: seq<Artifact>, gate: GateId)
    requires forall r :: r in required ==> Offers(counted, gate, r)
    ensures EvidenceBlockers(required, counted, gate) == []
  {
    if required != [] {
      assert required == [required[0]] + required[1..];
      NoEvidenceBlocks(required[1..], counted, gate);
    }
  }

  lemma {:induction false} NoCheckBlocks(required: seq<AssertionId>, counted: seq<Artifact>, gate: GateId)
    requires forall r :: r in required ==> Proves(counted, gate, r)
    ensures AssertionBlockers(required, counted, gate) == []
  {
    if required != [] {
      assert required == [required[0]] + required[1..];
      NoCheckBlocks(required[1..], counted, gate);
    }
  }

  lemma {:induction false} NoLegacyBlocks(input: Input, legacy: seq<Legacy>, counted: seq<Artifact>)
    requires forall k :: 0 <= k < |legacy| ==> legacy[k].retained
    ensures LegacyBlockers(input, legacy, counted, NOW) == []
  {
    if legacy != [] { NoLegacyBlocks(input, legacy[1..], counted); }
  }

  /** What the manifest and the policy agree on. */
  predicate Agrees(input: Input, d: Setting) {
    && input.manifest.policyRevision == input.policy.policyRevision && input.manifest.specVersion == input.policy.specVersion
    && input.manifest.environment == Staging && input.policy.legacyGates == d.legacy && AllRetained(d.legacy)
  }

  /** The gate's check is among what counts, with every assertion demanded. */
  predicate Checked(d: Setting, counted: seq<Artifact>, i: GateId) {
    Offers(counted, i, CHECK) && forall r :: r in d.checks ==> Proves(counted, i, r)
  }

  lemma AspectIsClear(aspect: Aspect, input: Input, d: Setting, i: nat, counted: seq<Artifact>, passed: set<GateId>)
    requires Agrees(input, d) && Checked(d, counted, i) && forall k :: 0 <= k < i ==> k in passed
    ensures BlockersIn(aspect, input, GateFor(d, i), counted, [], passed, NOW) == []
  {
    match aspect
    case Dependencies => NoDependencyBlocks(GateFor(d, i).dependsOn, passed);
    case Evidence => NoEvidenceBlocks([CHECK], counted, i);
    case Checks => NoCheckBlocks(d.checks, counted, i);
    case LegacyDecisions => NoLegacyBlocks(input, d.legacy, counted);
    case _ =>
  }

  lemma GatePasses(input: Input, d: Setting, i: nat, counted: seq<Artifact>, passed: set<GateId>)
    requires Agrees(input, d) && Checked(d, counted, i) && forall k :: 0 <= k < i ==> k in passed
    ensures Judge(input, GateFor(d, i), counted, [], passed, NOW).pass
  {
    NoBlockerIn(ASPECTS, input, GateFor(d, i), counted, [], passed, NOW);
    forall m | 0 <= m < |ASPECTS| ensures BlockersIn(ASPECTS[m], input, GateFor(d, i), counted, [], passed, NOW) == [] {
      AspectIsClear(ASPECTS[m], input, d, i, counted, passed);
    }
  }

  lemma {:induction false} GatesPass(input: Input, d: Setting, counted: seq<Artifact>, n: nat)
    requires Agrees(input, d) && n <= GATES && |input.policy.gates| == GATES
    requires forall i :: 0 <= i < GATES ==> input.policy.gates[i] == GateFor(d, i) && Checked(d, counted, i)
    ensures var gates := Judged(input, counted, [], n, NOW);
            AllPass(gates) && forall k :: 0 <= k < n ==> k in PassedIn(gates)
  {
    if n > 0 {
      var before := Judged(input, counted, [], n - 1, NOW);
      GatesPass(input, d, counted, n - 1);
      GatePasses(input, d, n - 1, counted, PassedIn(before));
      OneMorePasses(before, Judge(input, GateFor(d, n - 1), counted, [], PassedIn(before), NOW), n - 1);
    }
  }

  lemma OneMorePasses(before: seq<GateReport>, r: GateReport, n: nat)
    requires AllPass(before) && (forall d :: 0 <= d < n ==> d in PassedIn(before)) && r.pass && r.id == n
    ensures AllPass(before + [r]) && forall d :: 0 <= d <= n ==> d in PassedIn(before + [r])
  {
    NextReport(before, r);
  }

  lemma EveryGateIsChecked(d: Setting, counted: seq<Artifact>, i: nat)
    requires Has(counted, Proof(d, i)) && i < GATES
    ensures Checked(d, counted, i)
  {
    var k :| 0 <= k < |counted| && counted[k] == Proof(d, i);
    forall r | r in d.checks ensures Proves(counted, i, r) { ProofAsserts(d, i, r); }
  }

  /** All gates pass and nothing is missing, whatever assertions the policy demands and whatever legacy
      obligations it retains, and still the evaluation ends in an error about its report. */
  lemma RefusedReportExample(d: Setting)
    requires SettingOk(d)
    ensures PolicyOk(Example(d).policy) && ManifestOk(Example(d).manifest) && UniquePaths(Example(d).files)
    ensures Example(d).manifest.environment == Staging
    ensures ReportOf(Example(d), NOW).pass && ReportOf(Example(d), NOW).gaps == []
    ensures !ReportOk(ReportOf(Example(d), NOW))
  {
    var counted := Counted(Example(d), NOW);
    PolicyIsOk(d);
    ManifestIsOk(d);
    EverythingCounts(d);
    NoGaps(d, counted);
    forall i | 0 <= i < GATES ensures Checked(d, counted, i) { EveryGateIsChecked(d, counted, i); }
    GatesPass(Example(d), d, counted, GATES);
    ReportIsRefusedExactly(Example(d), NOW);
  }

  // ------------------------------------------------------------------ one setting

  /** An object of known values. */
  function Known(keys: seq<string>): Doc { Fields(Leaves(keys)) }

  function Leaves(keys: seq<string>): FieldList { if keys == [] then NoFields else Field(keys[0], Leaf, Leaves(keys[1..])) }

  function Scopes(keys: seq<string>): FieldList { if keys == [] then NoFields else Field(keys[0], ListOf(1), Scopes(keys[1..])) }

  /** Objects of known values, and known values after them. */
  function Objects(objects: seq<(string, seq<string>)>, scalars: seq<string>): FieldList {
    if objects == [] then Leaves(scalars) else Field(objects[0].0, Known(objects[0].1), Objects(objects[1..], scalars))
  }

  const SCOPES := ["services", "regions", "locales", "channels"]
  const RECOVERY_KEYS := ["id", "sealedAt"]
  const PROVIDERS := ["cloudflare"]
  const SCALARS := ["schemaVersion", "product", "specVersion", "releaseSha", "environment"]

  function Sections(): seq<(string, seq<string>)> {
    [("revisions", ["dependencies", "model", "prompts", "schemas"]), ("database", ["schemaDigest", "lastMigration"]),
     ("manifests", ["domains", "redirects", "media", "dataImport"]), ("policies", ["policyRevision", "roles", "retention", "templates"]),
     ("procedures", ["cutover", "rollback"]), ("evidenceDigests", Ids())]
  }

  /** What follows the three members that a manifest's fields are read from. */
  function Others(): FieldList {
    Field(SCOPE, Fields(Scopes(SCOPES)), Field("evidenceIds", ListOf(FILES), Field("approvals", ListOf(2), Objects(Sections(), SCALARS))))
  }

  /** The document of a manifest with every field known. */
  function Document(): Doc {
    Fields(Field(ARTIFACTS, Known(ARTIFACT_NAMES), Field(RECOVERY, Known(RECOVERY_KEYS), Field(ACCOUNTS, Known(PROVIDERS), Others()))))
  }

  lemma {:induction false} LeavesAreKnown(keys: seq<string>, path: seq<string>)
    ensures NoNullFields(Leaves(keys), path) && FieldCount(Leaves(keys)) == |keys|
    ensures forall key :: key in keys ==> FieldOf(Leaves(keys), key) == Some(Leaf)
  {
    if keys != [] { LeavesAreKnown(keys[1..], path); }
  }

  lemma {:induction false} ScopesAreFilled(keys: seq<string>, path: seq<string>)
    ensures NoNullFields(Scopes(keys), path)
  {
    if keys != [] { ScopesAreFilled(keys[1..], path); }
  }

  lemma {:induction false} ObjectsAreKnown(objects: seq<(string, seq<string>)>, scalars: seq<string>, path: seq<string>)
    ensures NoNullFields(Objects(objects, scalars), path)
  {
    if objects == [] {
      LeavesAreKnown(scalars, path);
    } else {
      LeavesAreKnown(objects[0].1, path + [objects[0].0]);
      ObjectsAreKnown(objects[1..], scalars, path);
    }
  }

  lemma OthersAreKnown(sections: FieldList)
    requires NoNullFields(sections, [])
    ensures NoNullFields(Field(SCOPE, Fields(Scopes(SCOPES)), Field("evidenceIds", ListOf(FILES), Field("approvals", ListOf(2), sections))), [])
  {
    ScopesAreFilled(SCOPES, [] + [SCOPE]);
    assert NoNullFields(Field("approvals", ListOf(2), sections), []);
  }

  lemma ThreeKnown(k: string, v: Doc, l: string, w: Doc, m: string, x: Doc, rest: FieldList)
    requires NoNulls(v, [] + [k]) && NoNulls(w, [] + [l]) && NoNulls(x, [] + [m]) && NoNullFields(rest, [])
    ensures NoNulls(Fields(Field(k, v, Field(l, w, Field(m, x, rest)))), [])
  {
    assert NoNullFields(Field(m, x, rest), []) && NoNullFields(Field(l, w, Field(m, x, rest)), []);
  }

  lemma DocumentIsKnown()
    ensures Walk(Document(), []) == []
  {
    LeavesAreKnown(ARTIFACT_NAMES, [] + [ARTIFACTS]);
    LeavesAreKnown(RECOVERY_KEYS, [] + [RECOVERY]);
    LeavesAreKnown(PROVIDERS, [] + [ACCOUNTS]);
    ObjectsAreKnown(Sections(), SCALARS, []);
    OthersAreKnown(Objects(Sections(), SCALARS));
    ThreeKnown(ARTIFACTS, Known(ARTIFACT_NAMES), RECOVERY, Known(RECOVERY_KEYS), ACCOUNTS, Known(PROVIDERS), Others());
    WalkFindsEveryUnknown(Document(), []);
  }

  lemma FirstThree(k: string, v: Doc, l: string, w: Doc, m: string, x: Doc, rest: FieldList)
    requires k != l && k != m && l != m
    ensures var doc := Fields(Field(k, v, Field(l, w, Field(m, x, rest))));
            Member(doc, k) == Some(v) && Member(doc, l) == Some(w) && Member(doc, m) == Some(x)
  {
    var third := Field(m, x, rest);
    var second := Field(l, w, third);
    assert FieldOf(third, m) == Some(x);
    assert FieldOf(second, m) == Some(x) && FieldOf(second, l) == Some(w);
  }

  lemma MembersFit(doc: Doc, rest: FieldList)
    requires doc == Fields(Field(ARTIFACTS, Known(ARTIFACT_NAMES), Field(RECOVERY, Known(RECOVERY_KEYS), Field(ACCOUNTS, Known(PROVIDERS), rest))))
    requires Walk(doc, []) == []
    ensures DocumentFits(doc)
  {
    assert ARTIFACTS[0] == 'a' && RECOVERY[0] == 'r' && ACCOUNTS[0] == 'p';
    FirstThree(ARTIFACTS, Known(ARTIFACT_NAMES), RECOVERY, Known(RECOVERY_KEYS), ACCOUNTS, Known(PROVIDERS), rest);
    LeavesAreKnown(ARTIFACT_NAMES, []);
    LeavesAreKnown(RECOVERY_KEYS, []);
    LeavesAreKnown(PROVIDERS, []);
  }

  lemma DocumentHasItsMembers(doc: Doc)
    requires doc == Document()
    ensures DocumentFits(doc)
  {
    DocumentIsKnown();
    MembersFit(doc, Others());
  }

  /** Stands for the digest of what is named. */
  function Sha256(name: string): (text: string)
    ensures "sha256:" <= text && text[|"sha256:"|..] == name
  {
    "sha256:" + name
  }

  /** The acceptance checks every policy must demand, every legacy gate retained, and a document. */
  function Shipped(doc: Doc): Setting {
    Setting(seq(68, (i: nat) => CheckId("AT" + [('0' as int + (i + 1) / 10 % 10) as char, ('0' as int + (i + 1) % 10) as char])),
            seq(LEGACY_GATES, (k: nat) => Legacy(k, true, None)), doc, seq(40, _ => '1'), "r", Sha256, "t", "o", "v")
  }

  lemma ShippedIsOk(doc: Doc)
    requires DocumentFits(doc)
    ensures SettingOk(Shipped(doc))
  {
    forall a, b | Sha256(a) == Sha256(b) ensures a == b {
      assert Sha256(a)[|"sha256:"|..] == a && Sha256(b)[|"sha256:"|..] == b;
    }
    ShippedTexts(Shipped(doc).sha, Shipped(doc).operator, Shipped(doc).reviewer);
  }

  lemma ShippedTexts(sha: string, operator: string, reviewer: string)
    requires |sha| == 40 && sha[0] == '1' && operator == "o" && reviewer == "v"
    ensures sha != "" && !Placeholder(sha) && operator != reviewer
  {
    assert operator[0] == 'o' && reviewer[0] == 'v';
  }

  /** The full document, AT01 to AT68 demanded of every gate, and every legacy obligation retained. */
  lemma ShippedIsRefused(doc: Doc)
    requires doc == Document()
    ensures SettingOk(Shipped(doc)) && ReportOf(Example(Shipped(doc)), NOW).pass && !ReportOk(ReportOf(Example(Shipped(doc)), NOW))
  {
    DocumentHasItsMembers(doc);
    ShippedIsOk(doc);
    RefusedReportExample(Shipped(doc));
  }
}
