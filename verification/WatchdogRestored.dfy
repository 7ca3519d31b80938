/** What `restored` and a release stand on, in every run: every zone was read back to its baseline, in
    each of the rounds that count. */
module WatchdogRestored {
  import opened Routes
  import opened WatchdogProtocol
  import opened WatchdogRuns
  import opened WatchdogRounds

  /** At moment m the provider listed zone a as the baseline has it, and from then to n it was one and the
      same round. */
  ghost predicate SeenBack(w: World, es: seq<Event>, a: nat, m: nat, n: nat)
    requires Legal(w, es) && m <= n <= |es|
  {
    && ZoneBack(At(w, es, m), a) && SameLease(At(w, es, m), At(w, es, n))
    && NotRestarted(es, m, n) && forall k: nat :: m <= k <= n ==> RoundOn(At(w, es, k))
  }

  predicate SameLease(u: World, v: World) {
    u.active.Some? && v.active.Some? && u.active.value.scope == v.active.value.scope && u.active.value.baseline == v.active.value.baseline
  }

  ghost predicate SeenBy(w: World, es: seq<Event>, a: nat, n: nat)
    requires Legal(w, es) && n <= |es|
  {
    exists m: nat :: m <= n && SeenBack(w, es, a, m, n)
  }

  predicate NotFailed(v: World) { v.active.Some? && !v.active.value.roundFailed }

  /** Zone a has been compared in the round, and was found back. */
  predicate Compared(v: World, a: nat) {
    RoundOn(v) && NotFailed(v) && a < v.active.value.verifyIndex && a < |v.active.value.baseline.value|
  }

  predicate AtZone(v: World, a: nat) { RoundOn(v) && VerifyingZones(v.active.value) && a == v.active.value.verifyIndex }

  /** Whatever a round takes for read has been read in it. */
  ghost predicate ReadSoFar(w: World, es: seq<Event>, n: nat)
    requires Legal(w, es) && n <= |es|
  {
    && (forall a: nat :: Compared(At(w, es, n), a) ==> SeenBy(w, es, a, n))
    && (forall a: nat :: At(w, es, n).readBack && AtZone(At(w, es, n), a) ==> SeenBy(w, es, a, n))
  }

  /** A wake notes a reading only in a round, and a round begins with none. */
  predicate Fresh(v: World) {
    && (v.readBack ==> RoundOn(v) && VerifyingZones(v.active.value))
    && (v.active.Some? && (v.active.value.status == Reserved || v.active.value.status == Armed) ==> v.active.value.verifyIndex == 0)
  }

  lemma FreshStep(v: World, e: Event)
    requires Fresh(v) && Enabled(v, e)
    ensures Fresh(Next(v, e))
  {
  }

  lemma {:induction false} FreshAt(w: World, es: seq<Event>, n: nat)
    requires Init(w) && Legal(w, es) && n <= |es|
    ensures Fresh(At(w, es, n))
  {
    if n == 0 {
      StartsAt(w, es);
    } else {
      FreshAt(w, es, n - 1);
      StepAt(w, es, n - 1);
      FreshStep(At(w, es, n - 1), es[n - 1]);
    }
  }

  /** The event keeps the round going. */
  predicate Continues(u: World, e: Event, v: World) { RoundOn(u) && RoundOn(v) && SameLease(u, v) && !e.StartRound? }

  /** How the reading of a round moves on by one event. */
  lemma ReadingStep(u: World, e: Event, v: World, a: nat)
    requires Fresh(u) && Enabled(u, e) && v == Next(u, e)
    ensures Compared(v, a) ==> Continues(u, e, v) && (Compared(u, a) || (u.readBack && AtZone(u, a)))
    ensures v.readBack && AtZone(v, a) ==> Continues(u, e, v) && ((u.readBack && AtZone(u, a)) || ZoneBack(u, a))
  {
    if e.Wake? { ReadingWake(u, e, v, a); } else if !e.ReadBack? { ReadingElse(u, e, v, a); }
  }

  lemma ReadingWake(u: World, e: Event, v: World, a: nat)
    requires Enabled(u, e) && v == Next(u, e) && e.Wake?
    ensures Compared(v, a) ==> Continues(u, e, v) && (Compared(u, a) || (u.readBack && AtZone(u, a)))
    ensures !v.readBack
  {
  }

  lemma ReadingElse(u: World, e: Event, v: World, a: nat)
    requires Fresh(u) && Enabled(u, e) && v == Next(u, e) && !e.Wake? && !e.ReadBack?
    ensures Compared(v, a) ==> Continues(u, e, v) && Compared(u, a)
    ensures v.readBack && AtZone(v, a) ==> Continues(u, e, v) && u.readBack && AtZone(u, a)
  {
  }

  lemma SeenStays(w: World, es: seq<Event>, a: nat, n: nat)
    requires Legal(w, es) && n < |es| && SeenBy(w, es, a, n) && Continues(At(w, es, n), es[n], At(w, es, n + 1))
    ensures SeenBy(w, es, a, n + 1)
  {
    var m: nat :| m <= n && SeenBack(w, es, a, m, n);
    assert SeenBack(w, es, a, m, n + 1);
  }

  lemma SeenNow(w: World, es: seq<Event>, a: nat, n: nat)
    requires Legal(w, es) && n < |es| && ZoneBack(At(w, es, n), a) && Continues(At(w, es, n), es[n], At(w, es, n + 1))
    ensures SeenBy(w, es, a, n + 1)
  {
    assert SeenBack(w, es, a, n, n + 1);
  }

  lemma ReadNextAt(w: World, es: seq<Event>, n: nat, a: nat)
    requires Init(w) && Legal(w, es) && n < |es| && ReadSoFar(w, es, n)
    ensures Compared(At(w, es, n + 1), a) ==> SeenBy(w, es, a, n + 1)
    ensures At(w, es, n + 1).readBack && AtZone(At(w, es, n + 1), a) ==> SeenBy(w, es, a, n + 1)
  {
    FreshAt(w, es, n);
    StepAt(w, es, n);
    ReadingStep(At(w, es, n), es[n], At(w, es, n + 1), a);
    if Continues(At(w, es, n), es[n], At(w, es, n + 1)) {
      if SeenBy(w, es, a, n) { SeenStays(w, es, a, n); }
      if ZoneBack(At(w, es, n), a) { SeenNow(w, es, a, n); }
    }
  }

  lemma ReadNext(w: World, es: seq<Event>, n: nat)
    requires Init(w) && Legal(w, es) && n < |es| && ReadSoFar(w, es, n)
    ensures ReadSoFar(w, es, n + 1)
  {
    var v := At(w, es, n + 1);
    forall a: nat | Compared(v, a) ensures SeenBy(w, es, a, n + 1) { ReadNextAt(w, es, n, a); }
    forall a: nat | v.readBack && AtZone(v, a) ensures SeenBy(w, es, a, n + 1) { ReadNextAt(w, es, n, a); }
  }

  lemma {:induction false} ReadSoFarAt(w: World, es: seq<Event>, n: nat)
    requires Init(w) && Legal(w, es) && n <= |es|
    ensures ReadSoFar(w, es, n)
  {
    if n == 0 {
      StartsAt(w, es);
    } else {
      ReadSoFarAt(w, es, n - 1);
      ReadNext(w, es, n - 1);
    }
  }

  // ------------------------------------------------------------------ rounds that restore

  ghost predicate EndsRound(w: World, es: seq<Event>, p: nat, verdict: Status)
    requires Legal(w, es) && p < |es|
  {
    es[p].Wake? && RoundOn(At(w, es, p)) && EndedAs(At(w, es, p + 1), verdict)
  }

  predicate EndedAs(v: World, verdict: Status) { v.active.Some? && v.active.value.status == verdict }

  lemma RestoringWake(v: World, e: Event, a: nat)
    requires Enabled(v, e) && e.Wake? && RoundOn(v) && EndedAs(Next(v, e), Restored) && a < |v.active.value.baseline.value|
    ensures Compared(v, a)
  {
  }

  /** A round ends `restored` only when every zone of the lease was read back to its baseline in that very
      round. */
  lemma RestoredReadsAll(w: World, es: seq<Event>, p: nat, a: nat)
    requires Init(w) && Legal(w, es) && p < |es| && EndsRound(w, es, p, Restored)
    requires a < |At(w, es, p).active.value.baseline.value|
    ensures SeenBy(w, es, a, p)
  {
    StepAt(w, es, p);
    RestoringWake(At(w, es, p), es[p], a);
    ReadSoFarAt(w, es, p);
  }

  // ------------------------------------------------------------------ releases

  function CleanReads(v: World): nat { if v.active.Some? then v.active.value.cleanReads else 0 }

  /** Clean reads are counted by rounds that end `restored`, and forgotten by one that fails. */
  lemma CountStep(v: World, e: Event, op: OpId)
    requires Enabled(v, e) && Holds(Next(v, e), op)
    ensures e.Reserve? ==> CleanReads(Next(v, e)) == 0
    ensures !e.Reserve? ==> Holds(v, op)
    ensures !e.Reserve? ==>
              CleanReads(Next(v, e)) == if e.Wake? && EndedAs(Next(v, e), Restored) then CleanReads(v) + 1
                                        else if e.Wake? && EndedAs(Next(v, e), ReconciliationRequired) then 0
                                        else CleanReads(v)
  {
  }

  /** Rounds of the lease that ended `restored` before moment n, one after another, and since the first of
      them none that failed. */
  ghost predicate CleanRounds(w: World, es: seq<Event>, ps: seq<nat>, n: nat, op: OpId)
    requires Legal(w, es) && n <= |es|
  {
    && (forall i :: 0 <= i < |ps| ==> ps[i] < n && Holds(At(w, es, ps[i]), op) && EndsRound(w, es, ps[i], Restored))
    && (forall i, j :: 0 <= i < j < |ps| ==> ps[i] < ps[j])
    && (ps != [] ==> forall q: nat :: ps[0] <= q < n ==> !EndsRound(w, es, q, ReconciliationRequired))
  }

  lemma OneMoreRound(w: World, es: seq<Event>, ps: seq<nat>, n: nat, op: OpId)
    requires Legal(w, es) && n < |es| && CleanRounds(w, es, ps, n, op)
    requires Holds(At(w, es, n), op) && EndsRound(w, es, n, Restored)
    ensures CleanRounds(w, es, ps + [n], n + 1, op)
  {
    var qs := ps + [n];
    forall i | 0 <= i < |qs| ensures qs[i] < n + 1 && Holds(At(w, es, qs[i]), op) && EndsRound(w, es, qs[i], Restored) {
      if i < |ps| { assert qs[i] == ps[i]; }
    }
    forall q: nat | qs[0] <= q < n + 1 ensures !EndsRound(w, es, q, ReconciliationRequired) {
      if q < n { assert qs[0] == ps[0]; }
    }
  }

  lemma SameRounds(w: World, es: seq<Event>, ps: seq<nat>, n: nat, op: OpId)
    requires Legal(w, es) && n < |es| && CleanRounds(w, es, ps, n, op) && !EndsRound(w, es, n, ReconciliationRequired)
    ensures CleanRounds(w, es, ps, n + 1, op)
  {
  }

  lemma CountAt(w: World, es: seq<Event>, n: nat, op: OpId)
    requires Legal(w, es) && n < |es| && Holds(At(w, es, n + 1), op)
    ensures es[n].Reserve? || EndsRound(w, es, n, ReconciliationRequired) ==> CleanReads(At(w, es, n + 1)) == 0
    ensures !es[n].Reserve? ==> Holds(At(w, es, n), op)
    ensures !es[n].Reserve? && !EndsRound(w, es, n, ReconciliationRequired) ==>
              CleanReads(At(w, es, n + 1)) == CleanReads(At(w, es, n)) + if EndsRound(w, es, n, Restored) then 1 else 0
  {
    StepAt(w, es, n);
    CountStep(At(w, es, n), es[n], op);
  }

  /** As many clean reads as are counted, so many rounds of the lease ended `restored` since the last that
      failed. */
  lemma {:induction false} CleanReadsAreRounds(w: World, es: seq<Event>, n: nat, op: OpId) returns (ps: seq<nat>)
    requires Init(w) && Legal(w, es) && n <= |es| && Holds(At(w, es, n), op)
    ensures CleanRounds(w, es, ps, n, op) && |ps| == CleanReads(At(w, es, n))
  {
    ps := [];
    if n == 0 {
      StartsAt(w, es);
    } else {
      CountAt(w, es, n - 1, op);
      if !es[n - 1].Reserve? && !EndsRound(w, es, n - 1, ReconciliationRequired) {
        ps := CleanReadsAreRounds(w, es, n - 1, op);
        if EndsRound(w, es, n - 1, Restored) {
          OneMoreRound(w, es, ps, n - 1, op);
          ps := ps + [n - 1];
        } else {
          SameRounds(w, es, ps, n - 1, op);
        }
      }
    }
  }

  /** Every release of a lease comes after three rounds of it that ended `restored`, none that failed
      between them or since, and in each of the three every zone was read back to its baseline. */
  lemma ReleaseFollowsCleanRounds(w: World, es: seq<Event>, n: nat, op: OpId) returns (ps: seq<nat>)
    requires Init(w) && Legal(w, es) && n < |es| && es[n].Release? && Holds(At(w, es, n), op)
    ensures |ps| >= 3 && CleanRounds(w, es, ps, n, op)
    ensures forall i, a: nat :: 0 <= i < |ps| && a < |At(w, es, ps[i]).active.value.baseline.value| ==> SeenBy(w, es, a, ps[i])
  {
    StepAt(w, es, n);
    ps := CleanReadsAreRounds(w, es, n, op);
    forall i, a: nat | 0 <= i < |ps| && a < |At(w, es, ps[i]).active.value.baseline.value| ensures SeenBy(w, es, a, ps[i]) {
      RestoredReadsAll(w, es, ps[i], a);
    }
  }
}
