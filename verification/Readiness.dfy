/** What a readiness snapshot is good for: it stays true until it expires, and it is well formed. */
module Readiness {
  import opened Options
  import opened ReleaseGates

  // ------------------------------------------------------------------ evidence that counts keeps counting

  lemma {:induction false} CountedHas(all: seq<Assessed>, a: Artifact)
    ensures a in CountedOf(all) <==> exists i :: 0 <= i < |all| && all[i].artifact == Some(a) && all[i].reasons == []
  {
    if all != [] {
      var n := |all| - 1;
      CountedHas(all[..n], a);
      assert forall i :: 0 <= i < n ==> all[..n][i] == all[i];
    }
  }

  /** A counted artifact is one file's, has no reason against it, and shares its id with no other file. */
  lemma CountedFile(input: Input, now: int, a: Artifact) returns (i: nat)
    requires a in Counted(input, now)
    ensures i < |input.files| && input.files[i].artifact == Some(a) && AssessArtifact(input, a, now) == [] && !SameIdElsewhere(input.files, i)
  {
    var all := Assess(input, |input.files|, now);
    CountedHas(all, a);
    i :| 0 <= i < |all| && all[i].artifact == Some(a) && all[i].reasons == [];
    AssessedAt(input, |all|, i, now);
    MarkedIsAssessed(input, i, now);
  }

  lemma CountedAgain(input: Input, now: int, i: nat)
    requires i < |input.files| && input.files[i].artifact.Some?
    requires AssessArtifact(input, input.files[i].artifact.value, now) == [] && !SameIdElsewhere(input.files, i)
    ensures input.files[i].artifact.value in Counted(input, now)
  {
    CountedHas(Assess(input, |input.files|, now), input.files[i].artifact.value);
    AssessedAt(input, |input.files|, i, now);
    MarkedIsAssessed(input, i, now);
  }

  /** No two counted artifacts share an id. */
  lemma CountedIdsDiffer(input: Input, now: int, a: Artifact, b: Artifact)
    requires a in Counted(input, now) && b in Counted(input, now) && a.id == b.id
    ensures a == b
  {
    var i := CountedFile(input, now, a);
    var j := CountedFile(input, now, b);
  }

  /** The limits one counted artifact sets. */
  predicate Within(policy: Policy, a: Artifact, t: int) {
    && (MaxAge(policy, a.evidenceType).Some? ==> t < a.observedAt + Minutes(MaxAge(policy, a.evidenceType).value))
    && (a.expiresAt.Some? ==> t < a.expiresAt.value)
  }

  lemma {:induction false} LimitCoversAll(policy: Policy, counted: seq<Artifact>, limit: int, t: int)
    requires t < EvidenceLimit(policy, counted, limit)
    ensures t < limit && forall a :: a in counted ==> Within(policy, a, t)
  {
    if counted != [] {
      var n := |counted| - 1;
      LimitCoversAll(policy, counted[..n], limit, t);
      assert counted == counted[..n] + [counted[n]];
      assert Within(policy, counted[n], t);
    }
  }

  /** The other way round: while every artifact is within its limits, so is their common limit. */
  lemma {:induction false} LimitFromAll(policy: Policy, counted: seq<Artifact>, limit: int, t: int)
    requires t < limit && forall a :: a in counted ==> Within(policy, a, t)
    ensures t < EvidenceLimit(policy, counted, limit) <= limit
  {
    if counted != [] {
      var n := |counted| - 1;
      forall a | a in counted[..n] ensures Within(policy, a, t) { assert a in counted; }
      LimitFromAll(policy, counted[..n], limit, t);
      assert counted[n] in counted;
    }
  }

  lemma {:induction false} NoReasonIn(standings: seq<Standing>, input: Input, t: EvidenceType, a: Artifact, now: int)
    ensures Reasons(standings, input, t, a, now) == [] <==>
              forall k :: 0 <= k < |standings| ==> ReasonsIn(standings[k], input, t, a, now) == []
  {
    if standings != [] {
      NoReasonIn(standings[1..], input, t, a, now);
      assert forall k :: 1 <= k < |standings| ==> standings[k] == standings[1..][k - 1];
      var first, rest := ReasonsIn(standings[0], input, t, a, now), Reasons(standings[1..], input, t, a, now);
      assert |first + rest| == |first| + |rest|;
    }
  }

  lemma NoReason(input: Input, t: EvidenceType, a: Artifact, now: int)
    requires FindType(input.policy.evidenceTypes, a.evidenceType) == Some(t)
    ensures AssessArtifact(input, a, now) == [] <==>
              ReasonsIn(Binding, input, t, a, now) == [] && ReasonsIn(Clock, input, t, a, now) == [] && ReasonsIn(Trust, input, t, a, now) == []
  {
    NoReasonIn(STANDINGS, input, t, a, now);
    assert STANDINGS[0] == Binding && STANDINGS[1] == Clock && STANDINGS[2] == Trust;
  }

  lemma ClockIsQuiet(t: EvidenceType, a: Artifact, now: int)
    ensures ClockReasons(t, a, now) == [] <==>
              && a.observedAt <= now + FUTURE_SKEW
              && (t.maxAgeMinutes.Some? ==> now - a.observedAt < Minutes(t.maxAgeMinutes.value))
              && (a.expiresAt.Some? ==> now < a.expiresAt.value)
  {
  }

  /** What an artifact is bound to and how far it is trusted is nothing to the clock. */
  lemma OnlyClockLooks(standing: Standing, input: Input, kind: EvidenceType, a: Artifact, now: int, t: int)
    requires standing != Clock
    ensures ReasonsIn(standing, input, kind, a, t) == ReasonsIn(standing, input, kind, a, now)
  {
  }

  lemma ClockStaysQuiet(kind: EvidenceType, a: Artifact, now: int, t: int)
    requires ClockReasons(kind, a, now) == [] && now <= t
    requires kind.maxAgeMinutes.Some? ==> t < a.observedAt + Minutes(kind.maxAgeMinutes.value)
    requires a.expiresAt.Some? ==> t < a.expiresAt.value
    ensures ClockReasons(kind, a, t) == []
  {
    ClockIsQuiet(kind, a, now);
    ClockIsQuiet(kind, a, t);
  }

  /** Nothing but the clock changes an artifact's standing, and not before its limits. */
  lemma ArtifactStays(input: Input, a: Artifact, now: int, t: int)
    requires AssessArtifact(input, a, now) == [] && now <= t && Within(input.policy, a, t)
    ensures AssessArtifact(input, a, t) == []
  {
    var kind := FindType(input.policy.evidenceTypes, a.evidenceType).value;
    NoReason(input, kind, a, now);
    OnlyClockLooks(Binding, input, kind, a, now, t);
    OnlyClockLooks(Trust, input, kind, a, now, t);
    ClockStaysQuiet(kind, a, now, t);
    NoReason(input, kind, a, t);
  }

  lemma CountedWithin(input: Input, a: Artifact, now: int)
    requires a in Counted(input, now)
    ensures Within(input.policy, a, now)
  {
    var i := CountedFile(input, now, a);
    var kind := FindType(input.policy.evidenceTypes, a.evidenceType).value;
    NoReason(input, kind, a, now);
    ClockIsQuiet(kind, a, now);
  }

  lemma CountedStays(input: Input, a: Artifact, now: int, t: int)
    requires a in Counted(input, now) && now <= t && Within(input.policy, a, t)
    ensures a in Counted(input, t)
  {
    var i := CountedFile(input, now, a);
    ArtifactStays(input, a, now, t);
    CountedAgain(input, t, i);
  }

  // ------------------------------------------------------------------ what more evidence and a later clock can only help

  /** Later evaluations have at least the earlier one's evidence, and name it the same way. */
  ghost predicate Grows(few: seq<Artifact>, many: seq<Artifact>) {
    && (forall a :: a in few ==> a in many)
    && (forall a, b :: a in many && b in many && a.id == b.id ==> a == b)
  }

  lemma {:induction false} FoundIsIn(counted: seq<Artifact>, id: string)
    ensures FindArtifact(counted, id).Some? ==> FindArtifact(counted, id).value in counted && FindArtifact(counted, id).value.id == id
    ensures FindArtifact(counted, id).None? ==> forall a :: a in counted ==> a.id != id
  {
    if counted != [] && counted[0].id != id {
      FoundIsIn(counted[1..], id);
      assert counted == [counted[0]] + counted[1..];
    }
  }

  lemma FoundAgain(few: seq<Artifact>, many: seq<Artifact>, id: string)
    requires Grows(few, many) && FindArtifact(few, id).Some?
    ensures FindArtifact(many, id) == FindArtifact(few, id)
  {
    FoundIsIn(few, id);
    FoundIsIn(many, id);
  }

  lemma StillIn(few: seq<Artifact>, many: seq<Artifact>, k: nat) returns (j: nat)
    requires Grows(few, many) && k < |few|
    ensures j < |many| && many[j] == few[k]
  {
    assert few[k] in many;
    j :| 0 <= j < |many| && many[j] == few[k];
  }

  lemma {:induction false} EvidenceGapsClose(ids: seq<string>, few: seq<Artifact>, many: seq<Artifact>)
    requires Grows(few, many) && EvidenceGaps(ids, few) == []
    ensures EvidenceGaps(ids, many) == []
  {
    if ids != [] {
      assert HasId(few, ids[0]);
      var k :| 0 <= k < |few| && few[k].id == ids[0];
      var j := StillIn(few, many, k);
      assert HasId(many, ids[0]);
      EvidenceGapsClose(ids[1..], few, many);
    }
  }

  lemma {:induction false} ApprovalGapsClose(m: Manifest, approvals: seq<Approval>, few: seq<Artifact>, many: seq<Artifact>, now: int, t: int)
    requires Grows(few, many) && now <= t && ApprovalGaps(m, approvals, few, now) == []
    ensures ApprovalGaps(m, approvals, many, t) == []
  {
    if approvals != [] {
      assert Attests(m, approvals[0], FindArtifact(few, approvals[0].evidenceId), now);
      FoundAgain(few, many, approvals[0].evidenceId);
      ApprovalGapsClose(m, approvals[1..], few, many, now, t);
    }
  }

  predicate RecoveryWithin(input: Input, t: int) {
    var sealed, age := input.manifest.recoverySealedAt, MaxAge(input.policy, RECOVERY_POINT);
    sealed.Some? && age.Some? ==> t < sealed.value + Minutes(age.value)
  }

  lemma RecoveryGapsClose(input: Input, now: int, t: int)
    requires now <= t && RecoveryGaps(input, now) == [] && RecoveryWithin(input, t)
    ensures RecoveryGaps(input, t) == []
  {
  }

  lemma {:induction false} NoGapIn(sources: seq<GapSource>, input: Input, counted: seq<Artifact>, now: int)
    ensures Gaps(sources, input, counted, now) == [] <==>
              forall k :: 0 <= k < |sources| ==> GapsIn(sources[k], input, counted, now) == []
  {
    if sources != [] {
      NoGapIn(sources[1..], input, counted, now);
      assert forall k :: 1 <= k < |sources| ==> sources[k] == sources[1..][k - 1];
      var first, rest := GapsIn(sources[0], input, counted, now), Gaps(sources[1..], input, counted, now);
      assert |first + rest| == |first| + |rest|;
    }
  }

  lemma SourceCloses(source: GapSource, input: Input, few: seq<Artifact>, many: seq<Artifact>, now: int, t: int)
    requires Grows(few, many) && now <= t && GapsIn(source, input, few, now) == [] && RecoveryWithin(input, t)
    ensures GapsIn(source, input, many, t) == []
  {
    match source
    case OfEvidence => EvidenceGapsClose(input.manifest.evidenceIds, few, many);
    case OfApprovals => ApprovalGapsClose(input.manifest, input.manifest.approvals, few, many, now, t);
    case OfRecovery => RecoveryGapsClose(input, now, t);
    case _ =>
  }

  lemma GapsClose(input: Input, few: seq<Artifact>, many: seq<Artifact>, now: int, t: int)
    requires Grows(few, many) && now <= t && Gaps(GAP_SOURCES, input, few, now) == [] && RecoveryWithin(input, t)
    ensures Gaps(GAP_SOURCES, input, many, t) == []
  {
    NoGapIn(GAP_SOURCES, input, few, now);
    NoGapIn(GAP_SOURCES, input, many, t);
    forall k | 0 <= k < |GAP_SOURCES| ensures GapsIn(GAP_SOURCES[k], input, many, t) == [] {
      SourceCloses(GAP_SOURCES[k], input, few, many, now, t);
    }
  }

  lemma RecoveryHasNoGap(input: Input, counted: seq<Artifact>, now: int)
    requires Gaps(GAP_SOURCES, input, counted, now) == []
    ensures RecoveryGaps(input, now) == []
  {
    NoGapIn(GAP_SOURCES, input, counted, now);
    assert GAP_SOURCES[4] == OfRecovery;
  }

  lemma {:induction false} LegacyStays(input: Input, legacy: seq<Legacy>, few: seq<Artifact>, many: seq<Artifact>, now: int, t: int)
    requires Grows(few, many) && now <= t && LegacyBlockers(input, legacy, few, now) == []
    ensures LegacyBlockers(input, legacy, many, t) == []
  {
    if legacy != [] {
      if !legacy[0].retained {
        assert LegacyApproved(input, legacy[0], few, now);
        var k :| 0 <= k < |few| && ApprovesLegacy(input, legacy[0], few[k]);
        var j := StillIn(few, many, k);
        assert ApprovesLegacy(input, legacy[0], many[j]);
      }
      LegacyStays(input, legacy[1..], few, many, now, t);
    }
  }

  lemma {:induction false} DependenciesStay(dependsOn: seq<GateId>, few: set<GateId>, many: set<GateId>)
    requires few <= many && DependencyBlockers(dependsOn, few) == []
    ensures DependencyBlockers(dependsOn, many) == []
  {
    if dependsOn != [] { DependenciesStay(dependsOn[1..], few, many); }
  }

  lemma {:induction false} OffersStay(required: seq<string>, few: seq<Artifact>, many: seq<Artifact>, gate: GateId)
    requires Grows(few, many) && EvidenceBlockers(required, few, gate) == []
    ensures EvidenceBlockers(required, many, gate) == []
  {
    if required != [] {
      assert Offers(few, gate, required[0]);
      var k :| 0 <= k < |few| && few[k].gate == gate && few[k].evidenceType == required[0];
      var j := StillIn(few, many, k);
      assert Offers(many, gate, required[0]);
      OffersStay(required[1..], few, many, gate);
    }
  }

  lemma {:induction false} ProofsStay(required: seq<AssertionId>, few: seq<Artifact>, many: seq<Artifact>, gate: GateId)
    requires Grows(few, many) && AssertionBlockers(required, few, gate) == []
    ensures AssertionBlockers(required, many, gate) == []
  {
    if required != [] {
      assert Proves(few, gate, required[0]);
      var k :| 0 <= k < |few| && few[k].gate == gate && Asserts(few[k], required[0]);
      var j := StillIn(few, many, k);
      assert Proves(many, gate, required[0]);
      ProofsStay(required[1..], few, many, gate);
    }
  }

  lemma {:induction false} NoBlockerIn(aspects: seq<Aspect>, input: Input, g: Gate, counted: seq<Artifact>, gaps: seq<Gap>, passed: set<GateId>, now: int)
    ensures Blockers(aspects, input, g, counted, gaps, passed, now) == [] <==>
              forall k :: 0 <= k < |aspects| ==> BlockersIn(aspects[k], input, g, counted, gaps, passed, now) == []
  {
    if aspects != [] {
      NoBlockerIn(aspects[1..], input, g, counted, gaps, passed, now);
      assert forall k :: 1 <= k < |aspects| ==> aspects[k] == aspects[1..][k - 1];
      var first, rest := BlockersIn(aspects[0], input, g, counted, gaps, passed, now), Blockers(aspects[1..], input, g, counted, gaps, passed, now);
      assert |first + rest| == |first| + |rest|;
    }
  }

  /** A gate passes exactly when no aspect blocks it. */
  lemma Unblocked(input: Input, g: Gate, counted: seq<Artifact>, gaps: seq<Gap>, passed: set<GateId>, now: int, aspect: Aspect)
    requires Blockers(ASPECTS, input, g, counted, gaps, passed, now) == []
    ensures BlockersIn(aspect, input, g, counted, gaps, passed, now) == []
  {
    NoBlockerIn(ASPECTS, input, g, counted, gaps, passed, now);
    assert ASPECTS[0] == Revisions && ASPECTS[1] == Deployment && ASPECTS[2] == Dependencies && ASPECTS[3] == Evidence
           && ASPECTS[4] == Checks && ASPECTS[5] == Completeness && ASPECTS[6] == LegacyDecisions;
  }

  lemma AspectStays(aspect: Aspect, input: Input, g: Gate, few: seq<Artifact>, many: seq<Artifact>, gaps: seq<Gap>, later: seq<Gap>,
                    passed: set<GateId>, more: set<GateId>, now: int, t: int)
    requires Grows(few, many) && passed <= more && now <= t && (gaps == [] ==> later == [])
    requires BlockersIn(aspect, input, g, few, gaps, passed, now) == []
    ensures BlockersIn(aspect, input, g, many, later, more, t) == []
  {
    match aspect
    case Dependencies => DependenciesStay(g.dependsOn, passed, more);
    case Evidence => OffersStay(g.requiredEvidence, few, many, g.id);
    case Checks => ProofsStay(g.requiredAssertions, few, many, g.id);
    case LegacyDecisions => if g.requiresLegacyMapping { LegacyStays(input, input.policy.legacyGates, few, many, now, t); }
    case _ =>
  }

  lemma GateStays(input: Input, g: Gate, few: seq<Artifact>, many: seq<Artifact>, gaps: seq<Gap>, later: seq<Gap>,
                  passed: set<GateId>, more: set<GateId>, now: int, t: int)
    requires Grows(few, many) && passed <= more && now <= t && (gaps == [] ==> later == [])
    requires Blockers(ASPECTS, input, g, few, gaps, passed, now) == []
    ensures Blockers(ASPECTS, input, g, many, later, more, t) == []
  {
    NoBlockerIn(ASPECTS, input, g, many, later, more, t);
    forall k | 0 <= k < |ASPECTS| ensures BlockersIn(ASPECTS[k], input, g, many, later, more, t) == [] {
      Unblocked(input, g, few, gaps, passed, now, ASPECTS[k]);
      AspectStays(ASPECTS[k], input, g, few, many, gaps, later, passed, more, now, t);
    }
  }

  ghost predicate StaysUp(a: seq<GateReport>, b: seq<GateReport>) {
    && |a| == |b| && PassedIn(a) <= PassedIn(b)
    && forall i :: 0 <= i < |a| ==> (a[i].pass ==> b[i].pass)
  }

  lemma OneMoreStaysUp(a: seq<GateReport>, b: seq<GateReport>, r: GateReport, s: GateReport)
    requires StaysUp(a, b) && r.id == s.id && (r.pass ==> s.pass)
    ensures StaysUp(a + [r], b + [s])
  {
    NextReport(a, r);
    NextReport(b, s);
  }

  /** Every gate that passed passes again, by induction over the gates in order. */
  lemma {:induction false} JudgedStays(input: Input, few: seq<Artifact>, many: seq<Artifact>, gaps: seq<Gap>, later: seq<Gap>, n: nat, now: int, t: int)
    requires n <= |input.policy.gates| && Grows(few, many) && now <= t && (gaps == [] ==> later == [])
    ensures StaysUp(Judged(input, few, gaps, n, now), Judged(input, many, later, n, t))
  {
    if n > 0 {
      JudgedStays(input, few, many, gaps, later, n - 1, now, t);
      NextStaysUp(input, few, many, gaps, later, Judged(input, few, gaps, n - 1, now), Judged(input, many, later, n - 1, t), n - 1, now, t);
    }
  }

  lemma NextStaysUp(input: Input, few: seq<Artifact>, many: seq<Artifact>, gaps: seq<Gap>, later: seq<Gap>,
                    a: seq<GateReport>, b: seq<GateReport>, n: nat, now: int, t: int)
    requires n < |input.policy.gates| && Grows(few, many) && now <= t && (gaps == [] ==> later == []) && StaysUp(a, b)
    ensures StaysUp(a + [Judge(input, input.policy.gates[n], few, gaps, PassedIn(a), now)],
                    b + [Judge(input, input.policy.gates[n], many, later, PassedIn(b), t)])
  {
    var g := input.policy.gates[n];
    JudgeStays(input, g, few, many, gaps, later, PassedIn(a), PassedIn(b), now, t);
    OneMoreStaysUp(a, b, Judge(input, g, few, gaps, PassedIn(a), now), Judge(input, g, many, later, PassedIn(b), t));
  }

  lemma JudgeStays(input: Input, g: Gate, few: seq<Artifact>, many: seq<Artifact>, gaps: seq<Gap>, later: seq<Gap>,
                   passed: set<GateId>, more: set<GateId>, now: int, t: int)
    requires Grows(few, many) && passed <= more && now <= t && (gaps == [] ==> later == [])
    ensures var a, b := Judge(input, g, few, gaps, passed, now), Judge(input, g, many, later, more, t);
            a.id == b.id == g.id && (a.pass ==> b.pass)
  {
    if Blockers(ASPECTS, input, g, few, gaps, passed, now) == [] { GateStays(input, g, few, many, gaps, later, passed, more, now, t); }
  }

  lemma RecoveryCovered(input: Input, limit: int, now: int, t: int)
    requires t < RecoveryLimit(input, limit, now)
    ensures t < limit && (RecoveryGaps(input, now) == [] ==> RecoveryWithin(input, t))
  {
  }

  /** Until the expiry, evidence is not lost and the release stays as complete as it was. */
  lemma NothingIsLost(input: Input, now: int, t: int)
    requires now <= t < Expiry(input, Counted(input, now), now)
    ensures Grows(Counted(input, now), Counted(input, t))
    ensures Gaps(GAP_SOURCES, input, Counted(input, now), now) == [] ==> Gaps(GAP_SOURCES, input, Counted(input, t), t) == []
  {
    EvidenceGrows(input, now, t);
    GapsStayClosed(input, Counted(input, now), Counted(input, t), now, t);
  }

  lemma GapsStayClosed(input: Input, few: seq<Artifact>, many: seq<Artifact>, now: int, t: int)
    requires Grows(few, many) && now <= t < Expiry(input, few, now)
    ensures Gaps(GAP_SOURCES, input, few, now) == [] ==> Gaps(GAP_SOURCES, input, many, t) == []
  {
    if Gaps(GAP_SOURCES, input, few, now) == [] {
      RecoveryHasNoGap(input, few, now);
      RecoveryStays(input, few, now, t);
      GapsClose(input, few, many, now, t);
    }
  }

  lemma RecoveryStays(input: Input, few: seq<Artifact>, now: int, t: int)
    requires now <= t < Expiry(input, few, now) && RecoveryGaps(input, now) == []
    ensures RecoveryWithin(input, t)
  {
    RecoveryCovered(input, EvidenceLimit(input.policy, few, now + Minutes(input.policy.snapshotMaxAgeMinutes)), now, t);
  }

  /** A snapshot stays true until it expires: whatever gate passes in it also passes when the same inputs
      are evaluated at any later moment before its expiry. */
  lemma SnapshotStaysTrue(input: Input, now: int, t: int, i: nat)
    requires now <= t < ReportOf(input, now).expiresAt && i < |input.policy.gates|
    requires ReportOf(input, now).gates[i].pass
    ensures ReportOf(input, t).gates[i].pass
  {
    NothingIsLost(input, now, t);
    JudgedStays(input, Counted(input, now), Counted(input, t), Gaps(GAP_SOURCES, input, Counted(input, now), now),
                Gaps(GAP_SOURCES, input, Counted(input, t), t), |input.policy.gates|, now, t);
  }

  /** In particular an accepted release stays accepted until the snapshot expires. */
  lemma AcceptanceStaysTrue(input: Input, now: int, t: int)
    requires now <= t < ReportOf(input, now).expiresAt && ReportOf(input, now).pass
    ensures ReportOf(input, t).pass
  {
    forall i | 0 <= i < |input.policy.gates| ensures ReportOf(input, t).gates[i].pass {
      assert ReportOf(input, now).gates[i].pass;
      SnapshotStaysTrue(input, now, t, i);
    }
  }

  lemma EvidenceGrows(input: Input, now: int, t: int)
    requires now <= t < Expiry(input, Counted(input, now), now)
    ensures Grows(Counted(input, now), Counted(input, t))
  {
    var few, many := Counted(input, now), Counted(input, t);
    var limit := now + Minutes(input.policy.snapshotMaxAgeMinutes);
    RecoveryCovered(input, EvidenceLimit(input.policy, few, limit), now, t);
    LimitCoversAll(input.policy, few, limit, t);
    forall a | a in few ensures a in many { CountedStays(input, a, now, t); }
    forall a, b | a in many && b in many && a.id == b.id ensures a == b { CountedIdsDiffer(input, t, a, b); }
  }

  // ------------------------------------------------------------------ well-formed reports

  lemma ExpiryIsBounded(input: Input, counted: seq<Artifact>, now: int)
    requires 0 < input.policy.snapshotMaxAgeMinutes <= DAY_MINUTES && forall a :: a in counted ==> Within(input.policy, a, now)
    ensures 0 < Expiry(input, counted, now) - now <= Minutes(DAY_MINUTES)
  {
    LimitFromAll(input.policy, counted, now + Minutes(input.policy.snapshotMaxAgeMinutes), now);
  }

  /** A snapshot lives, and for at most a day. */
  lemma LifespanIsBounded(input: Input, now: int)
    requires 0 < input.policy.snapshotMaxAgeMinutes <= DAY_MINUTES
    ensures 0 < ReportOf(input, now).expiresAt - now <= Minutes(DAY_MINUTES)
  {
    forall a | a in Counted(input, now) ensures Within(input.policy, a, now) { CountedWithin(input, a, now); }
    ExpiryIsBounded(input, Counted(input, now), now);
  }

  lemma {:induction false} JudgedPrefix(input: Input, counted: seq<Artifact>, gaps: seq<Gap>, n: nat, i: nat, now: int)
    requires i <= n <= |input.policy.gates|
    ensures Judged(input, counted, gaps, n, now)[..i] == Judged(input, counted, gaps, i, now)
  {
    if i < n {
      JudgedPrefix(input, counted, gaps, n - 1, i, now);
      var before := Judged(input, counted, gaps, n - 1, now);
      PrefixOfAppended(before, Judge(input, input.policy.gates[n - 1], counted, gaps, PassedIn(before), now), i);
    } else {
      WholePrefix(Judged(input, counted, gaps, n, now));
    }
  }

  lemma PrefixOfAppended(before: seq<GateReport>, last: GateReport, i: nat)
    requires i <= |before|
    ensures (before + [last])[..i] == before[..i]
  {
  }

  lemma WholePrefix(all: seq<GateReport>)
    ensures all[..|all|] == all
  {
  }

  /** Each gate's report is that gate judged by the ones before it. */
  lemma JudgedAt(input: Input, counted: seq<Artifact>, gaps: seq<Gap>, n: nat, i: nat, now: int)
    requires i < n <= |input.policy.gates|
    ensures Judged(input, counted, gaps, n, now)[i] == Judge(input, input.policy.gates[i], counted, gaps, PassedIn(Judged(input, counted, gaps, i, now)), now)
    ensures forall k :: 0 <= k < i ==> Judged(input, counted, gaps, n, now)[k] == Judged(input, counted, gaps, i, now)[k]
  {
    JudgedPrefix(input, counted, gaps, n, i + 1, now);
    JudgedPrefix(input, counted, gaps, n, i, now);
    assert Judged(input, counted, gaps, n, now)[i] == Judged(input, counted, gaps, n, now)[..i + 1][i];
    forall k | 0 <= k < i ensures Judged(input, counted, gaps, n, now)[k] == Judged(input, counted, gaps, i, now)[k] {
      assert Judged(input, counted, gaps, n, now)[..i][k] == Judged(input, counted, gaps, i, now)[k];
    }
  }

  lemma {:induction false} PassedHas(reports: seq<GateReport>, id: GateId)
    ensures id in PassedIn(reports) <==> exists k :: 0 <= k < |reports| && reports[k].id == id && reports[k].pass
  {
    if reports != [] {
      var n := |reports| - 1;
      PassedHas(reports[..n], id);
      assert forall k :: 0 <= k < n ==> reports[..n][k] == reports[k];
    }
  }

  lemma {:induction false} DependenciesPassed(dependsOn: seq<GateId>, passed: set<GateId>, d: GateId)
    requires DependencyBlockers(dependsOn, passed) == [] && d in dependsOn
    ensures d in passed
  {
    if d != dependsOn[0] { DependenciesPassed(dependsOn[1..], passed, d); }
  }

  /** A passing gate's dependencies all pass. */
  lemma DependencyPasses(input: Input, now: int, i: nat, d: GateId)
    requires PolicyOk(input.policy) && i < GATES && d in input.policy.gates[i].dependsOn && ReportOf(input, now).gates[i].pass
    ensures d < i && ReportOf(input, now).gates[d].pass
  {
    var counted := Counted(input, now);
    var gaps := Gaps(GAP_SOURCES, input, counted, now);
    DependencyOfJudged(input, counted, gaps, now, i, d);
  }

  lemma DependencyOfJudged(input: Input, counted: seq<Artifact>, gaps: seq<Gap>, now: int, i: nat, d: GateId)
    requires PolicyOk(input.policy) && i < GATES && d in input.policy.gates[i].dependsOn
    requires Judged(input, counted, gaps, GATES, now)[i].pass
    ensures d < i && Judged(input, counted, gaps, GATES, now)[d].pass
  {
    assert GateOk(input.policy, i);
    var before := Judged(input, counted, gaps, i, now);
    JudgedAt(input, counted, gaps, GATES, i, now);
    PassedDependency(input, input.policy.gates[i], counted, gaps, PassedIn(before), now, d);
    PassedHas(before, d);
    var k :| 0 <= k < |before| && before[k].id == d && before[k].pass;
    JudgedAt(input, counted, gaps, i, k, now);
    assert GateOk(input.policy, k);
    assert Judged(input, counted, gaps, GATES, now)[k] == before[k];
  }

  lemma PassedDependency(input: Input, g: Gate, counted: seq<Artifact>, gaps: seq<Gap>, passed: set<GateId>, now: int, d: GateId)
    requires Judge(input, g, counted, gaps, passed, now).pass && d in g.dependsOn
    ensures d in passed
  {
    Unblocked(input, g, counted, gaps, passed, now, Dependencies);
    DependenciesPassed(g.dependsOn, passed, d);
  }

  /** The verdict is R12's: it passes exactly when R12 does. */
  lemma VerdictIsR12(input: Input, now: int)
    requires PolicyOk(input.policy)
    ensures ReportOf(input, now).pass <==> ReportOf(input, now).gates[R12].pass
  {
    var gates := ReportOf(input, now).gates;
    if gates[R12].pass {
      Depends(input, now, R12, R11);
      Depends(input, now, R11, R10);
      forall i | 0 <= i < |gates| ensures gates[i].pass {
        if i < R10 { Depends(input, now, R10, i); }
      }
    }
  }

  lemma Depends(input: Input, now: int, i: nat, d: GateId)
    requires PolicyOk(input.policy) && i < GATES && d < GATES && MustDependOn(i, d) && ReportOf(input, now).gates[i].pass
    ensures ReportOf(input, now).gates[d].pass
  {
    assert GateOk(input.policy, i);
    DependencyPasses(input, now, i, d);
  }

  lemma {:induction false} IdsOfferedHave(counted: seq<Artifact>, gate: GateId, id: string)
    ensures id in IdsOffered(counted, gate) <==> exists k :: 0 <= k < |counted| && counted[k].gate == gate && counted[k].id == id
  {
    if counted != [] {
      var n := |counted| - 1;
      IdsOfferedHave(counted[..n], gate, id);
      assert forall k :: 0 <= k < n ==> counted[..n][k] == counted[k];
    }
  }

  lemma PassedGateHasEvidence(input: Input, g: Gate, counted: seq<Artifact>, gaps: seq<Gap>, passed: set<GateId>, now: int)
    requires g.requiredEvidence != [] && Judge(input, g, counted, gaps, passed, now).pass
    ensures Judge(input, g, counted, gaps, passed, now).evidenceIds != []
  {
    Unblocked(input, g, counted, gaps, passed, now, Evidence);
    assert Offers(counted, g.id, g.requiredEvidence[0]);
    var k :| 0 <= k < |counted| && counted[k].gate == g.id && counted[k].evidenceType == g.requiredEvidence[0];
    IdsOfferedHave(counted, g.id, counted[k].id);
  }

  /** Every id a gate lists stands in the evidence table as counted for that gate. */
  lemma ListedIsBacked(r: Report, all: seq<Assessed>, gate: GateId, id: string)
    requires r.evidence == RowsOf(all) && id in IdsOffered(CountedOf(all), gate)
    ensures Backed(r, gate, id)
  {
    var counted := CountedOf(all);
    IdsOfferedHave(counted, gate, id);
    var k :| 0 <= k < |counted| && counted[k].gate == gate && counted[k].id == id;
    CountedHas(all, counted[k]);
    assert counted[k] in counted;
    var i :| 0 <= i < |all| && all[i].artifact == Some(counted[k]) && all[i].reasons == [];
    RowAt(all, i);
    assert r.evidence[i] == RowOf(all[i]);
  }

  lemma GateReportsOk(input: Input, now: int, i: nat)
    requires PolicyOk(input.policy) && i < GATES
    ensures GateReportOk(ReportOf(input, now), i)
  {
    var counted := Counted(input, now);
    var gaps := Gaps(GAP_SOURCES, input, counted, now);
    JudgedAt(input, counted, gaps, GATES, i, now);
    assert GateOk(input.policy, i);
    var g := ReportOf(input, now).gates[i];
    assert g == Judge(input, input.policy.gates[i], counted, gaps, PassedIn(Judged(input, counted, gaps, i, now)), now);
    if g.pass { PassedGateHasEvidence(input, input.policy.gates[i], counted, gaps, PassedIn(Judged(input, counted, gaps, i, now)), now); }
    forall id | id in g.evidenceIds ensures Backed(ReportOf(input, now), g.id, id) { ListedIsBacked(ReportOf(input, now), Assess(input, |input.files|, now), g.id, id); }
  }

  lemma RowsOk(input: Input, now: int)
    ensures forall k :: 0 <= k < |ReportOf(input, now).evidence| ==> RowOk(ReportOf(input, now).evidence[k])
  {
    var all := Assess(input, |input.files|, now);
    forall k | 0 <= k < |all| ensures RowOk(ReportOf(input, now).evidence[k]) {
      RowAt(all, k);
      AssessedAt(input, |all|, k, now);
      MarkedIsAssessed(input, k, now);
    }
  }

  /** Every evaluation of a schema-valid policy gives a report that keeps the report's cross-field rules,
      the one on acceptance aside. */
  lemma ReportIsWellFormed(input: Input, now: int)
    requires PolicyOk(input.policy)
    ensures WellFormed(ReportOf(input, now))
  {
    var r := ReportOf(input, now);
    LifespanIsBounded(input, now);
    forall i | 0 <= i < GATES ensures GateReportOk(r, i) { GateReportsOk(input, now, i); }
    RowsOk(input, now);
    assert RowIds(r.legacy) == LegacyIds(input.policy.legacyGates);
  }

  predicate AnyPostCutover(policy: Policy) { exists i :: 0 <= i < |policy.gates| && policy.gates[i].stage == PostCutover }

  lemma JudgedGateUnblocked(input: Input, counted: seq<Artifact>, gaps: seq<Gap>, now: int, i: nat, aspect: Aspect)
    requires |input.policy.gates| == GATES && i < GATES && Judged(input, counted, gaps, GATES, now)[i].pass
    ensures exists passed :: BlockersIn(aspect, input, input.policy.gates[i], counted, gaps, passed, now) == []
  {
    JudgedAt(input, counted, gaps, GATES, i, now);
    Unblocked(input, input.policy.gates[i], counted, gaps, PassedIn(Judged(input, counted, gaps, i, now)), now, aspect);
  }

  lemma AllPassNeedsAll(input: Input, counted: seq<Artifact>, gaps: seq<Gap>, now: int)
    requires PolicyOk(input.policy) && AllPass(Judged(input, counted, gaps, GATES, now))
    ensures gaps == [] && (AnyPostCutover(input.policy) ==> input.manifest.environment == Production)
  {
    assert GateOk(input.policy, R10);
    JudgedGateUnblocked(input, counted, gaps, now, R10, Completeness);
    if AnyPostCutover(input.policy) {
      var i :| 0 <= i < |input.policy.gates| && input.policy.gates[i].stage == PostCutover;
      JudgedGateUnblocked(input, counted, gaps, now, i, Deployment);
    }
  }

  lemma FullPassHasNoGaps(input: Input, now: int)
    requires PolicyOk(input.policy) && ReportOf(input, now).pass
    ensures ReportOf(input, now).gaps == [] && (AnyPostCutover(input.policy) ==> input.manifest.environment == Production)
  {
    AllPassNeedsAll(input, Counted(input, now), Gaps(GAP_SOURCES, input, Counted(input, now), now), now);
  }

  /** Evaluation ends in an error about its own report in exactly one case: every gate passes and the
      release is not for production. A policy with any post-cutover gate never gets there. */
  lemma ReportIsRefusedExactly(input: Input, now: int)
    requires PolicyOk(input.policy)
    ensures !ReportOk(ReportOf(input, now)) <==> ReportOf(input, now).pass && input.manifest.environment != Production
    ensures AnyPostCutover(input.policy) ==> ReportOk(ReportOf(input, now))
  {
    ReportIsWellFormed(input, now);
    if ReportOf(input, now).pass { FullPassHasNoGaps(input, now); }
  }

  // ------------------------------------------------------------------ the manifest's unknowns

  predicate NoNulls(doc: Doc, path: seq<string>) {
    match doc
    case Null => false
    case Leaf => true
    case ListOf(n) => n > 0 || |path| < 2 || path[0] != SCOPE
    case Fields(fields) => NoNullFields(fields, path)
  }

  predicate NoNullFields(fields: FieldList, path: seq<string>) {
    match fields
    case NoFields => true
    case Field(key, value, rest) => NoNulls(value, path + [key]) && NoNullFields(rest, path)
  }

  /** The walk reports nothing exactly when no field is null and no scope list is empty. */
  lemma {:induction false} WalkFindsEveryUnknown(doc: Doc, path: seq<string>)
    ensures Walk(doc, path) == [] <==> NoNulls(doc, path)
    decreases doc
  {
    match doc
    case Fields(fields) => WalkFindsEveryUnknownField(fields, path);
    case _ =>
  }

  lemma {:induction false} WalkFindsEveryUnknownField(fields: FieldList, path: seq<string>)
    ensures WalkFields(fields, path) == [] <==> NoNullFields(fields, path)
    decreases fields
  {
    match fields
    case NoFields =>
    case Field(key, value, rest) =>
      WalkFindsEveryUnknown(value, path + [key]);
      WalkFindsEveryUnknownField(rest, path);
  }

  // ------------------------------------------------------------------ what a passing report stands on

  lemma {:induction false} FieldHasNoNull(fields: FieldList, path: seq<string>, key: string)
    requires NoNullFields(fields, path) && FieldOf(fields, key).Some?
    ensures NoNulls(FieldOf(fields, key).value, path + [key])
  {
    if fields.key != key { FieldHasNoNull(fields.rest, path, key); }
  }

  lemma MemberHasNoNull(doc: Doc, path: seq<string>, key: string)
    requires NoNulls(doc, path) && Member(doc, key).Some?
    ensures NoNulls(Member(doc, key).value, path + [key])
  {
    FieldHasNoNull(doc.fields, path, key);
  }

  lemma ManifestHasNoNull(m: Manifest)
    requires ManifestGaps(m) == []
    ensures NoNulls(m.doc, [])
  {
    WalkFindsEveryUnknown(m.doc, []);
    assert |ManifestGaps(m)| >= |Walk(m.doc, [])|;
  }

  lemma NothingUnknown(m: Manifest)
    requires ManifestOk(m) && ManifestGaps(m) == []
    ensures m.recoverySealedAt.Some? && forall name :: name in ARTIFACT_NAMES ==> name in m.artifacts && m.artifacts[name].Some?
  {
    ManifestHasNoNull(m);
    MemberHasNoNull(m.doc, [], RECOVERY);
    forall name | name in ARTIFACT_NAMES ensures m.artifacts[name].Some? { ArtifactKnown(m, name); }
  }

  lemma ArtifactKnown(m: Manifest, name: string)
    requires ManifestOk(m) && NoNulls(m.doc, []) && name in ARTIFACT_NAMES
    ensures m.artifacts[name].Some?
  {
    assert KnownIn(Member(m.doc, ARTIFACTS), name, m.artifacts[name].Some?);
    MemberHasNoNull(m.doc, [], ARTIFACTS);
    MemberHasNoNull(Member(m.doc, ARTIFACTS).value, [] + [ARTIFACTS], name);
  }

  lemma ManifestHasNoGap(input: Input, counted: seq<Artifact>, now: int)
    requires Gaps(GAP_SOURCES, input, counted, now) == []
    ensures ManifestGaps(input.manifest) == []
  {
    NoGapIn(GAP_SOURCES, input, counted, now);
    assert GAP_SOURCES[0] == OfManifest;
  }

  /** A complete release has its recovery point sealed, and not too long ago, and every artifact known. */
  lemma CompleteMeansKnown(input: Input, counted: seq<Artifact>, now: int)
    requires ManifestOk(input.manifest) && Gaps(GAP_SOURCES, input, counted, now) == []
    ensures forall name :: name in ARTIFACT_NAMES ==> name in input.manifest.artifacts && input.manifest.artifacts[name].Some?
    ensures input.manifest.recoverySealedAt.Some? && input.manifest.recoverySealedAt.value <= now && RecoveryWithin(input, now)
  {
    ManifestHasNoGap(input, counted, now);
    NothingUnknown(input.manifest);
    RecoveryHasNoGap(input, counted, now);
    RecoveryIsFresh(input, now);
  }

  lemma RecoveryIsFresh(input: Input, now: int)
    requires RecoveryGaps(input, now) == [] && input.manifest.recoverySealedAt.Some?
    ensures input.manifest.recoverySealedAt.value <= now && RecoveryWithin(input, now)
  {
  }

  lemma {:induction false} LegacyDecided(input: Input, legacy: seq<Legacy>, counted: seq<Artifact>, now: int, k: nat)
    requires LegacyBlockers(input, legacy, counted, now) == [] && k < |legacy|
    ensures legacy[k].retained || LegacyApproved(input, legacy[k], counted, now)
  {
    if k > 0 { LegacyDecided(input, legacy[1..], counted, now, k - 1); }
  }

  lemma LegacyDecidedByR00(input: Input, counted: seq<Artifact>, gaps: seq<Gap>, now: int, k: nat)
    requires |input.policy.gates| == GATES && input.policy.gates[R00].requiresLegacyMapping && k < |input.policy.legacyGates|
    requires Judged(input, counted, gaps, GATES, now)[R00].pass
    ensures LegacyRows(input, counted, now)[k].approved
  {
    JudgedGateUnblocked(input, counted, gaps, now, R00, LegacyDecisions);
    LegacyDecided(input, input.policy.legacyGates, counted, now, k);
  }

  /** When R00 passes, every row of the legacy table is approved. */
  lemma PassingMeansLegacyDecided(input: Input, now: int, k: nat)
    requires PolicyOk(input.policy) && ReportOf(input, now).gates[R00].pass && k < |ReportOf(input, now).legacy|
    ensures ReportOf(input, now).legacy[k].approved
  {
    assert GateOk(input.policy, R00);
    LegacyDecidedByR00(input, Counted(input, now), Gaps(GAP_SOURCES, input, Counted(input, now), now), now, k);
  }

  /** A passing report of a valid manifest stands on a sealed recovery point, known artifacts and a
      decision about every legacy gate. */
  lemma PassMeansKnown(input: Input, now: int)
    requires PolicyOk(input.policy) && ManifestOk(input.manifest) && ReportOf(input, now).pass
    ensures forall name :: name in ARTIFACT_NAMES ==> name in input.manifest.artifacts && input.manifest.artifacts[name].Some?
    ensures input.manifest.recoverySealedAt.Some? && input.manifest.recoverySealedAt.value <= now && RecoveryWithin(input, now)
    ensures forall k :: 0 <= k < |ReportOf(input, now).legacy| ==> ReportOf(input, now).legacy[k].approved
  {
    FullPassHasNoGaps(input, now);
    CompleteMeansKnown(input, Counted(input, now), now);
    forall k | 0 <= k < |ReportOf(input, now).legacy| ensures ReportOf(input, now).legacy[k].approved {
      PassingMeansLegacyDecided(input, now, k);
    }
  }
}
