/** What holds over whole runs of the cutover protocol, however its events interleave and wherever
    a handler crashes. */
module WatchdogRuns {
  import opened Options
  import opened Routes
  import opened WatchdogProtocol
  import opened WatchdogSafety
  import opened WatchdogAlways
  import opened WatchdogLate

  // ------------------------------------------------------------------ live routes

  /** `t` is the zone's baseline with exactly the intents in `on` applied, each under its id. */
  ghost predicate ShowsSubset(s: State, zone: Zone, t: Table, on: map<nat, RouteId>)
    requires Bound(s)
  {
    var base := TableOf(zone.routes);
    && (forall k :: k in on ==> k < |s.intents| && s.intents[k].change.zoneId == zone.id)
    && (forall k :: k in on ==> if s.intents[k].before.Some? then on[k] == s.intents[k].before.value.id else on[k] !in base)
    && (forall k, m :: k in on && m in on && on[k] == on[m] ==> k == m)
    && (forall k :: k in on ==> on[k] in t && t[on[k]] == WorkerRow(s, k))
    && (forall id :: id in base && id !in on.Values ==> id in t && t[id] == base[id])
    && (forall id :: id in t ==> id in base || id in on.Values)
  }

  ghost predicate Shows(s: State, zone: Zone, t: Table, k: nat, id: RouteId)
    requires Bound(s) && k < |s.intents|
  {
    && s.intents[k].change.zoneId == zone.id && id in t && t[id] == WorkerRow(s, k)
    && (if s.intents[k].before.Some? then id == s.intents[k].before.value.id else id !in TableOf(zone.routes))
  }

  ghost predicate Shown(s: State, zone: Zone, t: Table, k: nat)
    requires Bound(s) && k < |s.intents|
  {
    exists id :: Shows(s, zone, t, k, id)
  }

  lemma ZoneShowsSubset(s: State, zone: Zone, t: Table) returns (on: map<nat, RouteId>)
    requires Bound(s) && WellBound(s.plan.value, s.baseline.value) && IntentsOk(s)
    requires zone in s.baseline.value && ZoneOk(s, zone, t)
    ensures ShowsSubset(s, zone, t, on)
  {
    on := map k: nat | k < |s.intents| && Shown(s, zone, t, k) :: ShownId(s, zone, t, k);
    var base := TableOf(zone.routes);
    forall k, m | k in on && m in on && on[k] == on[m] ensures k == m {
      if k != m { DifferentKeys(s, k, m); }
    }
    forall id | id in base && t[id] != base[id] ensures id in on.Values {
      var k: nat :| Replaces(s, k, zone.id, id) && t[id] == WorkerRow(s, k);
      assert Shows(s, zone, t, k, id);
      assert k in on && on[k] == id;
    }
    forall id | id in t && id !in base ensures id in on.Values {
      var k: nat :| Creates(s, k, zone.id) && t[id] == WorkerRow(s, k);
      assert Shows(s, zone, t, k, id);
      assert Shows(s, zone, t, k, on[k]);
    }
  }

  ghost function ShownId(s: State, zone: Zone, t: Table, k: nat): (id: RouteId)
    requires Bound(s) && k < |s.intents| && Shown(s, zone, t, k)
    ensures Shows(s, zone, t, k, id)
  {
    var id :| Shows(s, zone, t, k, id); id
  }

  /** From bind on, every zone of the lease always shows its baseline with some subset of the
      durably saved intents applied, and nothing else: after any events whatever, a crash
      anywhere, and calls acknowledged, refused, lost or late. Only after two early reservations in
      a row it can be otherwise; `WatchdogTwice.TwoEarlyReservationsExactly` tells when. */
  lemma LiveIsBaselinePlusIntents(o: World, log: seq<Event>, w: World, s: State, zone: Zone) returns (on: map<nat, RouteId>)
    requires RunsTo(o, log, w) && !EarlyTwice(o, log) && w.active == Some(s) && Bound(s) && zone in s.baseline.value
    ensures zone.id in w.live && ShowsSubset(s, zone, w.live[zone.id], on)
  {
    AlwaysNow(o, log, w);
    RunEnds(o, log, w);
    LateAlongRun(o, log);
    on := LateShowsSubset(w, s, zone);
  }

  lemma LateShowsSubset(w: World, s: State, zone: Zone) returns (on: map<nat, RouteId>)
    requires Always(w) && Late(w) && w.active == Some(s) && Bound(s) && zone in s.baseline.value
    ensures zone.id in w.live && ShowsSubset(s, zone, w.live[zone.id], on)
  {
    assert BoundAlways(w, s);
    var a :| 0 <= a < |s.baseline.value| && s.baseline.value[a] == zone;
    on := ZoneShowsSubset(s, zone, w.live[zone.id]);
  }

  // ------------------------------------------------------------------ forward writes

  ghost function At(w: World, es: seq<Event>, n: nat): World
    requires Legal(w, es) && n <= |es|
  {
    PrefixLegal(w, es, n);
    After(w, es[..n]).value
  }

  lemma StepAt(w: World, es: seq<Event>, n: nat)
    requires Legal(w, es) && n < |es|
    ensures Enabled(At(w, es, n), es[n]) && At(w, es, n + 1) == Next(At(w, es, n), es[n])
  {
    PrefixLegal(w, es, n);
    PrefixLegal(w, es, n + 1);
  }

  function LastKey(w: World): Key
    requires w.active.Some? && w.active.value.intents != []
  {
    KeyOf(w.active.value, w.active.value.intents[|w.active.value.intents| - 1].change)
  }

  lemma {:induction false} Carry(f: nat -> bool, i: nat, j: nat)
    requires i <= j && f(i) && forall n: nat :: i <= n < j && f(n) ==> f(n + 1)
    ensures f(j)
    decreases j
  {
    if i < j { Carry(f, i, j - 1); }
  }

  lemma SentStep(w: World, e: Event, key: Key)
    requires Enabled(w, e) && key in w.sent
    ensures key in Next(w, e).sent
  {
  }

  lemma SentNext(w: World, es: seq<Event>, n: nat, key: Key)
    requires Legal(w, es) && n < |es| && key in At(w, es, n).sent
    ensures key in At(w, es, n + 1).sent
  {
    StepAt(w, es, n);
    SentStep(At(w, es, n), es[n], key);
  }

  lemma SentOnlyGrows(w: World, es: seq<Event>, i: nat, j: nat, key: Key)
    requires Legal(w, es) && i <= j <= |es| && key in At(w, es, i).sent
    ensures key in At(w, es, j).sent
  {
    var f := (n: nat) => Legal(w, es) && n <= |es| && key in At(w, es, n).sent;
    forall n: nat | i <= n < j && f(n) ensures f(n + 1) { SentNext(w, es, n, key); }
    Carry(f, i, j);
  }

  /** No planned change is ever sent forward twice. */
  lemma ForwardSentOnce(w: World, es: seq<Event>, i: nat, j: nat)
    requires Legal(w, es) && i < j < |es| && es[i] == SendForward && es[j] == SendForward
    ensures At(w, es, i).active.Some? && At(w, es, i).active.value.intents != []
    ensures At(w, es, j).active.Some? && At(w, es, j).active.value.intents != []
    ensures LastKey(At(w, es, i)) != LastKey(At(w, es, j))
  {
    StepAt(w, es, i);
    StepAt(w, es, j);
    assert LastKey(At(w, es, i)) in At(w, es, i + 1).sent;
    SentOnlyGrows(w, es, i + 1, j, LastKey(At(w, es, i)));
  }

  // ------------------------------------------------------------------ leases

  predicate Holds(w: World, op: OpId) { w.active.Some? && w.active.value.scope.operationId == op }

  /** One event replaces a lease only when that lease is finished and archived. */
  lemma ReplacedOnlyWhenFinished(w: World, e: Event, op: OpId)
    requires Enabled(w, e) && Holds(w, op)
    ensures Holds(Next(w, e), op) || (Finished(w.active.value) && op in w.history && e.Reserve?)
  {
  }

  /** In a run a lease is replaced by a reservation alone, and only once it is accepted or released and
      archived. */
  lemma {:induction false} LeaseReplaced(w: World, es: seq<Event>, i: nat, j: nat, op: OpId) returns (n: nat)
    requires Legal(w, es) && i <= j <= |es| && Holds(At(w, es, i), op) && !Holds(At(w, es, j), op)
    ensures i <= n < j && es[n].Reserve? && Holds(At(w, es, n), op)
    ensures Finished(At(w, es, n).active.value) && op in At(w, es, n).history
    decreases j
  {
    if Holds(At(w, es, j - 1), op) {
      n := j - 1;
      StepAt(w, es, n);
      ReplacedOnlyWhenFinished(At(w, es, n), es[n], op);
    } else {
      n := LeaseReplaced(w, es, i, j - 1, op);
    }
  }

  predicate Known(w: World, op: OpId) { Holds(w, op) || op in w.history }

  predicate Gone(w: World, op: OpId) { !Holds(w, op) && op in w.history }

  lemma KnownStep(w: World, e: Event, op: OpId)
    requires Enabled(w, e) && Known(w, op)
    ensures Known(Next(w, e), op)
  {
  }

  lemma KnownNext(w: World, es: seq<Event>, n: nat, op: OpId)
    requires Legal(w, es) && n < |es| && Known(At(w, es, n), op)
    ensures Known(At(w, es, n + 1), op)
  {
    StepAt(w, es, n);
    KnownStep(At(w, es, n), es[n], op);
  }

  lemma GoneStep(w: World, e: Event, op: OpId)
    requires Enabled(w, e) && Gone(w, op)
    ensures Gone(Next(w, e), op)
  {
  }

  lemma GoneNext(w: World, es: seq<Event>, n: nat, op: OpId)
    requires Legal(w, es) && n < |es| && Gone(At(w, es, n), op)
    ensures Gone(At(w, es, n + 1), op)
  {
    StepAt(w, es, n);
    GoneStep(At(w, es, n), es[n], op);
  }

  lemma HeldThenArchived(w: World, es: seq<Event>, i: nat, j: nat, op: OpId)
    requires Legal(w, es) && i <= j <= |es| && Known(At(w, es, i), op)
    ensures Known(At(w, es, j), op)
  {
    var f := (n: nat) => Legal(w, es) && n <= |es| && Known(At(w, es, n), op);
    forall n: nat | i <= n < j && f(n) ensures f(n + 1) { KnownNext(w, es, n, op); }
    Carry(f, i, j);
  }

  lemma ArchivedNeverReturns(w: World, es: seq<Event>, i: nat, j: nat, op: OpId)
    requires Legal(w, es) && i <= j <= |es| && Gone(At(w, es, i), op)
    ensures Gone(At(w, es, j), op)
  {
    var f := (n: nat) => Legal(w, es) && n <= |es| && Gone(At(w, es, n), op);
    forall n: nat | i <= n < j && f(n) ensures f(n + 1) { GoneNext(w, es, n, op); }
    Carry(f, i, j);
  }

  /** Operation ids never repeat: a lease that was replaced never comes back. */
  lemma OperationsNeverRepeat(w: World, es: seq<Event>, i: nat, j: nat, k: nat, op: OpId)
    requires Legal(w, es) && i <= j <= k <= |es|
    requires Holds(At(w, es, i), op) && !Holds(At(w, es, j), op)
    ensures !Holds(At(w, es, k), op)
  {
    HeldThenArchived(w, es, i, j, op);
    ArchivedNeverReturns(w, es, j, k, op);
  }

  predicate PastArmed(w: World, op: OpId) {
    if Holds(w, op) then w.active.value.status != Reserved && w.active.value.status != Armed else op in w.history
  }

  lemma PastArmedStep(w: World, e: Event, op: OpId)
    requires Enabled(w, e) && PastArmed(w, op)
    ensures PastArmed(Next(w, e), op)
  {
    if Holds(w, op) { PastArmedHeld(w, e, op); } else { GoneStep(w, e, op); }
  }

  lemma PastArmedHeld(w: World, e: Event, op: OpId)
    requires Enabled(w, e) && PastArmed(w, op) && Holds(w, op)
    ensures PastArmed(Next(w, e), op)
  {
  }

  lemma PastArmedNext(w: World, es: seq<Event>, n: nat, op: OpId)
    requires Legal(w, es) && n < |es| && PastArmed(At(w, es, n), op)
    ensures PastArmed(At(w, es, n + 1), op)
  {
    StepAt(w, es, n);
    PastArmedStep(At(w, es, n), es[n], op);
  }

  lemma PastArmedForever(w: World, es: seq<Event>, i: nat, j: nat, op: OpId)
    requires Legal(w, es) && i <= j <= |es| && PastArmed(At(w, es, i), op)
    ensures PastArmed(At(w, es, j), op)
  {
    var f := (n: nat) => Legal(w, es) && n <= |es| && PastArmed(At(w, es, n), op);
    forall n: nat | i <= n < j && f(n) ensures f(n + 1) { PastArmedNext(w, es, n, op); }
    Carry(f, i, j);
  }

  /** Once a lease has left `armed`, no forward write is ever sent for it again. */
  lemma NoForwardAfterArmed(w: World, es: seq<Event>, i: nat, j: nat, op: OpId)
    requires Legal(w, es) && i <= j < |es| && PastArmed(At(w, es, i), op) && es[j] == SendForward
    ensures At(w, es, j).active.Some? && At(w, es, j).active.value.intents != [] && LastKey(At(w, es, j)).op != op
  {
    PastArmedForever(w, es, i, j, op);
    StepAt(w, es, j);
  }

  // ------------------------------------------------------------------ acceptance

  /** The zone's table is its baseline with every planned change of the zone made, and nothing
      else. Said from the plan alone: no intent, no journal. */
  ghost predicate ShowsWholePlan(plan: Plan, zone: Zone, t: Table) {
    var base := TableOf(zone.routes);
    && UniquePatterns(t)
    && (forall id :: id in base ==> id in t)
    && (forall id :: id in base && !PlannedAt(plan, zone, id) ==> t[id] == base[id])
    && (forall c :: c in plan.routes && c.zoneId == zone.id ==> ChangeShown(plan, zone, t, c))
    && (forall id :: id in t && id !in base ==> AddedByPlan(plan, zone, t[id]))
  }

  ghost predicate PlannedAt(plan: Plan, zone: Zone, id: RouteId) {
    exists c :: c in plan.routes && c.zoneId == zone.id && c.baselineRouteId == Some(id)
  }

  ghost predicate ChangeShown(plan: Plan, zone: Zone, t: Table, c: Change) {
    var row := Row(c.pattern, Some(plan.workerName));
    match c.baselineRouteId
    case Some(id) => id in t && t[id] == row
    case None => exists id :: id in t && id !in TableOf(zone.routes) && t[id] == row
  }

  ghost predicate AddedByPlan(plan: Plan, zone: Zone, row: Row) {
    exists c :: c in plan.routes && c.zoneId == zone.id && c.baselineRouteId.None? && row == Row(c.pattern, Some(plan.workerName))
  }

  /** As many intents as planned changes, all for distinct planned changes: none is missing. */
  lemma EveryChangeHasIntent(s: State, c: Change)
    requires Bound(s) && IntentsOk(s) && |s.intents| == |s.plan.value.routes| && c in s.plan.value.routes
    requires WellBound(s.plan.value, s.baseline.value)
    ensures exists k :: 0 <= k < |s.intents| && s.intents[k].change == c
  {
    var saved := seq(|s.intents|, k requires 0 <= k < |s.intents| => s.intents[k].change);
    forall k, m | 0 <= k < m < |saved| ensures saved[k] != saved[m] { DifferentKeys(s, k, m); }
    forall k | 0 <= k < |saved| ensures saved[k] in s.plan.value.routes { assert IntentOk(s, k); }
    Pigeonhole(saved, s.plan.value.routes, c);
    var k :| 0 <= k < |saved| && saved[k] == c;
    assert s.intents[k].change == c;
  }

  /** Distinct elements of `b`, as many as `b` has, leave none of them out. */
  lemma Pigeonhole<T>(a: seq<T>, b: seq<T>, x: T)
    requires |a| == |b| && (forall i, j :: 0 <= i < j < |a| ==> a[i] != a[j]) && (forall i :: 0 <= i < |a| ==> a[i] in b)
    requires x in b
    ensures x in a
  {
    MembersOfDistinct(a);
    MembersAtMost(b);
    if x !in a {
      SubsetSize(Members(a) + {x}, Members(b));
    }
  }

  ghost function Members<T>(a: seq<T>): set<T> { set x | x in a }

  lemma {:induction false} MembersOfDistinct<T>(a: seq<T>)
    requires forall i, j :: 0 <= i < j < |a| ==> a[i] != a[j]
    ensures |Members(a)| == |a|
  {
    if a != [] {
      var n := |a| - 1;
      MembersOfDistinct(a[..n]);
      assert a == a[..n] + [a[n]];
      assert Members(a) == Members(a[..n]) + {a[n]};
    }
  }

  lemma {:induction false} MembersAtMost<T>(a: seq<T>)
    ensures |Members(a)| <= |a|
  {
    if a != [] {
      var n := |a| - 1;
      MembersAtMost(a[..n]);
      assert a == a[..n] + [a[n]];
      assert Members(a) == Members(a[..n]) + {a[n]};
    }
  }

  lemma SubsetSize<T>(a: set<T>, b: set<T>)
    requires a <= b
    ensures |a| <= |b|
  {
    assert b == a + (b - a);
  }

  lemma {:induction false} AppliedAt(base: Table, zone: ZoneId, intents: seq<Intent>, worker: string)
    requires Acked(zone, intents)
    requires forall k, m :: 0 <= k < m < |intents| && intents[k].change.zoneId == zone == intents[m].change.zoneId ==> intents[k].id != intents[m].id
    ensures var t := Applied(base, zone, intents, worker);
            && (forall k :: 0 <= k < |intents| && intents[k].change.zoneId == zone ==>
                  intents[k].id.value in t && t[intents[k].id.value] == Row(intents[k].change.pattern, Some(worker)))
            && (forall id :: (forall k :: 0 <= k < |intents| && intents[k].change.zoneId == zone ==> intents[k].id != Some(id)) ==>
                  (id in t <==> id in base) && (id in t ==> t[id] == base[id]))
  {
    if intents != [] {
      var n := |intents| - 1;
      assert forall k :: 0 <= k < n ==> intents[..n][k] == intents[k];
      AppliedAt(base, zone, intents[..n], worker);
    }
  }

  /** Two acknowledged intents of one zone sit under different ids. */
  lemma AckedIdsDiffer(s: State, live: map<ZoneId, Table>, k: nat, m: nat)
    requires Bound(s) && IntentsOk(s) && k < |s.intents| && m < |s.intents| && k != m
    requires s.intents[k].change.zoneId == s.intents[m].change.zoneId
    requires s.intents[k].id.Some? && s.intents[m].id.Some?
    requires RowApplied(s, live, k, s.intents[k].id.value) && RowApplied(s, live, m, s.intents[m].id.value)
    ensures s.intents[k].id != s.intents[m].id
  {
    DifferentKeys(s, k, m);
  }

  /** `accepted` means the whole plan, and nothing but the plan, is live: at the moment of
      acceptance and for as long as the lease stays accepted. Nothing is left in the network. This asks
      that the last reservation was careful; `WatchdogFence.EarlyReservationExactly` tells what
      happens otherwise. */
  lemma AcceptedShowsWholePlan(o: World, log: seq<Event>, w: World, s: State, zone: Zone)
    requires CarefulTo(o, log, w) && w.active == Some(s) && Bound(s) && s.status == Accepted && zone in s.baseline.value
    ensures w.flying == multiset{} && zone.id in w.live && ShowsWholePlan(s.plan.value, zone, w.live[zone.id])
  {
    InvNow(o, log, w);
    assert BoundOk(w, s);
    SettledZone(w, s, zone);
  }

  lemma SettledZone(v: World, s: State, zone: Zone)
    requires Bound(s) && WellBound(s.plan.value, s.baseline.value) && IntentsOk(s) && LiveOk(s, v.live) && Settled(s, v.live)
    requires zone in s.baseline.value
    ensures zone.id in v.live && ShowsWholePlan(s.plan.value, zone, v.live[zone.id])
  {
    var a :| 0 <= a < |s.baseline.value| && s.baseline.value[a] == zone;
    var t := v.live[zone.id];
    assert ZoneOk(s, zone, t);
    forall c | c in s.plan.value.routes && c.zoneId == zone.id ensures ChangeShown(s.plan.value, zone, t, c) {
      EveryChangeHasIntent(s, c);
      var k :| 0 <= k < |s.intents| && s.intents[k].change == c;
      SettledChange(v, s, zone, k);
    }
    forall id | id in t && id !in TableOf(zone.routes) ensures AddedByPlan(s.plan.value, zone, t[id]) {
      var k :| Creates(s, k, zone.id) && t[id] == WorkerRow(s, k);
      IntentPlanned(s, zone, k);
    }
    forall id | id in TableOf(zone.routes) && !PlannedAt(s.plan.value, zone, id) ensures t[id] == TableOf(zone.routes)[id] {
      if t[id] != TableOf(zone.routes)[id] {
        var k :| Replaces(s, k, zone.id, id) && t[id] == WorkerRow(s, k);
        IntentPlanned(s, zone, k);
      }
    }
  }

  /** An intent's change is planned, and its replaced route is the one the plan names. */
  lemma IntentPlanned(s: State, zone: Zone, k: nat)
    requires Bound(s) && WellBound(s.plan.value, s.baseline.value) && IntentsOk(s)
    requires zone in s.baseline.value && k < |s.intents| && s.intents[k].change.zoneId == zone.id
    ensures s.intents[k].change in s.plan.value.routes
    ensures s.intents[k].before.Some? <==> s.intents[k].change.baselineRouteId.Some?
    ensures s.intents[k].before.Some? ==> s.intents[k].change.baselineRouteId == Some(s.intents[k].before.value.id)
  {
    var c := s.intents[k].change;
    assert IntentOk(s, k);
    ZoneFound(s.baseline.value, zone);
    var i :| 0 <= i < |s.plan.value.routes| && s.plan.value.routes[i] == c;
    assert GroundedChange(c, s.baseline.value);
    FindRouteHits(zone.routes, if c.baselineRouteId.Some? then c.baselineRouteId.value else RouteId(0));
  }

  lemma SettledChange(v: World, s: State, zone: Zone, k: nat)
    requires Bound(s) && WellBound(s.plan.value, s.baseline.value) && IntentsOk(s) && Settled(s, v.live)
    requires zone in s.baseline.value && k < |s.intents| && s.intents[k].change.zoneId == zone.id && zone.id in v.live
    ensures ChangeShown(s.plan.value, zone, v.live[zone.id], s.intents[k].change)
  {
    IntentPlanned(s, zone, k);
    assert s.intents[k].id.Some? && RowApplied(s, v.live, k, s.intents[k].id.value);
    var a :| 0 <= a < |s.baseline.value| && s.baseline.value[a] == zone;
  }

  // ------------------------------------------------------------------ alarms

  /** A lease is open and nothing will wake the watchdog. */
  predicate Unguarded(w: World) { w.active.Some? && !Finished(w.active.value) && w.alarm.None? }

  /** An event that opens a lease while no alarm is pending: a fresh reservation, or a round
      started again on an accepted or released lease. */
  predicate OpensUnguarded(w: World, e: Event) {
    w.alarm.None? && (e.Reserve? || (e.StartRound? && w.active.Some? && Finished(w.active.value)))
  }

  lemma UnguardedStep(w: World, e: Event)
    requires Enabled(w, e)
    ensures Unguarded(Next(w, e)) ==> Unguarded(w) || OpensUnguarded(w, e)
    ensures OpensUnguarded(w, e) ==> Unguarded(Next(w, e))
  {
  }

  lemma UnguardedAt(w: World, es: seq<Event>, n: nat)
    requires Legal(w, es) && n < |es|
    ensures Unguarded(At(w, es, n + 1)) ==> Unguarded(At(w, es, n)) || OpensUnguarded(At(w, es, n), es[n])
    ensures OpensUnguarded(At(w, es, n), es[n]) ==> Unguarded(At(w, es, n + 1))
  {
    StepAt(w, es, n);
    UnguardedStep(At(w, es, n), es[n]);
  }

  /** An open lease has a pending alarm except in one gap: since the event that opened it (the
      reservation's save, or the save that reopens a finished lease) no alarm has been set. */
  lemma UnguardedOnlySinceOpening(w: World, es: seq<Event>, n: nat) returns (j: nat)
    requires Init(w) && Legal(w, es) && n <= |es| && Unguarded(At(w, es, n))
    ensures j < n && OpensUnguarded(At(w, es, j), es[j]) && forall m: nat :: j < m <= n ==> Unguarded(At(w, es, m))
  {
    var f := (m: nat) => Legal(w, es) && m <= |es| && Unguarded(At(w, es, m));
    StartsAt(w, es);
    j := LastRise(f, n);
    UnguardedAt(w, es, j);
    forall m: nat | j < m <= n ensures Unguarded(At(w, es, m)) { assert f(m); }
  }

  predicate OpenLease(w: World) { w.active.Some? && !Finished(w.active.value) }

  /** Event j opened a lease without a pending alarm; up to event n it stayed open and no alarm was set. */
  ghost predicate GapSince(w: World, es: seq<Event>, j: nat, n: nat)
    requires Legal(w, es) && n <= |es|
  {
    && j < n && OpensUnguarded(At(w, es, j), es[j])
    && (forall m :: j < m < n ==> !es[m].SetAlarm?) && forall m: nat :: j < m <= n ==> OpenLease(At(w, es, m))
  }

  lemma GapStep(w: World, es: seq<Event>, m: nat)
    requires Legal(w, es) && m < |es|
    ensures es[m].SetAlarm? ==> !Unguarded(At(w, es, m + 1))
    ensures Unguarded(At(w, es, m)) && !es[m].SetAlarm? && OpenLease(At(w, es, m + 1)) ==> Unguarded(At(w, es, m + 1))
  {
    StepAt(w, es, m);
  }

  /** An open lease is without a pending alarm exactly in such a gap. */
  lemma UnguardedExactly(w: World, es: seq<Event>, n: nat)
    requires Init(w) && Legal(w, es) && n <= |es|
    ensures Unguarded(At(w, es, n)) <==> exists j: nat :: GapSince(w, es, j, n)
  {
    if Unguarded(At(w, es, n)) {
      var j := UnguardedOnlySinceOpening(w, es, n);
      forall m: nat | j < m < n ensures !es[m].SetAlarm? { GapStep(w, es, m); }
      assert GapSince(w, es, j, n);
    }
    if j: nat :| GapSince(w, es, j, n) {
      UnguardedAt(w, es, j);
      var f := (m: nat) => Legal(w, es) && m <= |es| && Unguarded(At(w, es, m));
      forall m: nat | j < m < n && f(m) ensures f(m + 1) { GapStep(w, es, m); }
      Carry(f, j + 1, n);
    }
  }

  lemma StartsAt(w: World, es: seq<Event>)
    requires Legal(w, es)
    ensures At(w, es, 0) == w
  {
    assert es[..0] == [];
  }

  lemma {:induction false} LastRise(f: nat -> bool, n: nat) returns (j: nat)
    requires f(n) && !f(0)
    ensures j < n && !f(j) && forall m: nat :: j < m <= n ==> f(m)
  {
    if f(n - 1) { j := LastRise(f, n - 1); } else { j := n - 1; }
  }

  /** The gap is real: a handler that stops between the two writes of a reservation leaves it. */
  lemma ReservationGap(w: World, scope: Scope)
    requires Init(w) && ScopeOk(scope)
    ensures Legal(w, [Reserve(scope)]) && Unguarded(After(w, [Reserve(scope)]).value)
  {
    assert [Reserve(scope)][..0] == [];
  }

  // ------------------------------------------------------------------ the comparison before a write

  /** While armed, a zone whose intents are all acknowledged shows exactly the baseline with those
      intents applied: the comparison made before the next write holds. */
  lemma ArmedZoneIsApplied(w: World, s: State, zone: Zone)
    requires Bound(s) && WellBound(s.plan.value, s.baseline.value) && IntentsOk(s) && LiveOk(s, w.live) && AckedShown(s, w.live)
    requires zone in s.baseline.value && Acked(zone.id, s.intents)
    ensures zone.id in w.live && w.live[zone.id] == Applied(TableOf(zone.routes), zone.id, s.intents, s.plan.value.workerName)
  {
    var a :| 0 <= a < |s.baseline.value| && s.baseline.value[a] == zone;
    var t := w.live[zone.id];
    var base := TableOf(zone.routes);
    forall k, m | 0 <= k < m < |s.intents| && s.intents[k].change.zoneId == zone.id == s.intents[m].change.zoneId
      ensures s.intents[k].id != s.intents[m].id
    {
      AckedIdsDiffer(s, w.live, k, m);
    }
    AppliedAt(base, zone.id, s.intents, s.plan.value.workerName);
    forall id ensures (id in t <==> id in Applied(base, zone.id, s.intents, s.plan.value.workerName))
                      && (id in t ==> t[id] == Applied(base, zone.id, s.intents, s.plan.value.workerName)[id])
    {
      if exists k :: 0 <= k < |s.intents| && s.intents[k].change.zoneId == zone.id && s.intents[k].id == Some(id) {
        var k :| 0 <= k < |s.intents| && s.intents[k].change.zoneId == zone.id && s.intents[k].id == Some(id);
        assert RowApplied(s, w.live, k, id);
      } else {
        UntouchedRow(s, zone, t, id, w.live);
      }
    }
  }

  /** A route no intent sits under is a baseline route, as the baseline has it. */
  lemma UntouchedRow(s: State, zone: Zone, t: Table, id: RouteId, live: map<ZoneId, Table>)
    requires Bound(s) && WellBound(s.plan.value, s.baseline.value) && IntentsOk(s) && ZoneOk(s, zone, t)
    requires zone in s.baseline.value && zone.id in live && live[zone.id] == t && Acked(zone.id, s.intents) && AckedShown(s, live)
    requires forall k :: 0 <= k < |s.intents| && s.intents[k].change.zoneId == zone.id ==> s.intents[k].id != Some(id)
    ensures id in t <==> id in TableOf(zone.routes)
    ensures id in t ==> t[id] == TableOf(zone.routes)[id]
  {
    var base := TableOf(zone.routes);
    forall k ensures !Replaces(s, k, zone.id, id) {
      assert 0 <= k < |s.intents| ==> IntentOk(s, k);
    }
    if id in t {
      forall k | Creates(s, k, zone.id) ensures t[id] != WorkerRow(s, k) {
        assert RowApplied(s, live, k, s.intents[k].id.value);
      }
    }
  }

  // ------------------------------------------------------------------ the arrays the handlers build

  /** What the splices rely on, for one zone of an armed lease. */
  lemma IntentsGrounded(w: World, s: State, zone: Zone)
    requires PatternsOk(w) && w.active == Some(s) && Bound(s) && WellBound(s.plan.value, s.baseline.value) && IntentsOk(s)
    requires zone in s.baseline.value
    ensures Distinct(zone.routes) && Grounded(zone.routes, zone.id, s.intents)
  {
    forall k | 0 <= k < |s.intents| && s.intents[k].change.zoneId == zone.id ensures IntentGrounded(zone.routes, s.intents[k]) {
      OneIntentGrounded(s, zone, k);
    }
    forall k, m | 0 <= k < m < |s.intents| && s.intents[k].change.zoneId == zone.id == s.intents[m].change.zoneId
      ensures s.intents[k].change.pattern != s.intents[m].change.pattern
      ensures s.intents[k].id.Some? && s.intents[m].id.Some? ==> s.intents[k].id != s.intents[m].id
    {
      DifferentKeys(s, k, m);
      if s.intents[k].id.Some? && s.intents[m].id.Some? { RecordedIdsDiffer(w, s, k, m); }
    }
  }

  /** Two intents of one zone were never recorded under one id: a route id keeps its pattern. */
  lemma RecordedIdsDiffer(w: World, s: State, k: nat, m: nat)
    requires PatternsOk(w) && w.active == Some(s) && k < |s.intents| && m < |s.intents|
    requires s.intents[k].change.zoneId == s.intents[m].change.zoneId && s.intents[k].change.pattern != s.intents[m].change.pattern
    requires s.intents[k].id.Some? && s.intents[m].id.Some?
    ensures s.intents[k].id != s.intents[m].id
  {
    var z, id := s.intents[k].change.zoneId, s.intents[k].id.value;
    assert IntentHas(s, z, id, s.intents[k].change.pattern);
    if s.intents[m].id == Some(id) {
      assert IntentHas(s, z, id, s.intents[m].change.pattern);
      assert Named(w, z, id, s.intents[k].change.pattern) && Named(w, z, id, s.intents[m].change.pattern);
    }
  }

  lemma OneIntentGrounded(s: State, zone: Zone, k: nat)
    requires Bound(s) && WellBound(s.plan.value, s.baseline.value) && IntentsOk(s)
    requires zone in s.baseline.value && k < |s.intents| && s.intents[k].change.zoneId == zone.id
    ensures IntentGrounded(zone.routes, s.intents[k])
  {
    ReplacedRow(s, zone, k);
    assert IntentOk(s, k);
    if s.intents[k].before.None? && s.intents[k].id.Some? {
      BaseIdOfZone(s, zone, s.intents[k].id.value);
      TableHolds(zone.routes);
    }
  }

  /** In every run, wherever a replacement is spliced into a zone's rows, `findIndex` finds the row: it
      never answers -1, which would overwrite the last row instead. */
  lemma SplicesNeverMiss(o: World, log: seq<Event>, w: World, s: State, zone: Zone, k: nat)
    requires RunsTo(o, log, w) && w.active == Some(s) && Bound(s) && zone in s.baseline.value
    requires k < |s.intents| && s.intents[k].before.Some? && s.intents[k].change.zoneId == zone.id && Acked(zone.id, s.intents)
    ensures Acked(zone.id, s.intents[..k])
    ensures var done := Expected(zone.routes, zone.id, s.intents[..k], s.plan.value.workerName);
            var i := FindIndex(done, s.intents[k].before.value.id);
            0 <= i < |done| && done[i].id == s.intents[k].before.value.id
  {
    AlwaysNow(o, log, w);
    assert BoundAlways(w, s);
    IntentsGrounded(w, s, zone);
    FindIndexNeverMisses(zone.routes, zone.id, s.intents, s.plan.value.workerName, k);
  }

  // ------------------------------------------------------------------ letting go

  /** In every run, once a restored lease has outlasted its fence, no forward write of it is left in the
      network: all were sent before the first clean round ended. What may be left are its own undoing
      writes sent since; a request's lifetime after the last of them, nothing is. */
  lemma FenceOutlastsForwards(o: World, log: seq<Event>, w: World, s: State)
    requires RunsTo(o, log, w) && w.active == Some(s) && Outlasted(s, w.clock)
    ensures SentBy(w, s, s.restoredAt.value)
    ensures forall f :: f in w.flying ==> f.at > s.restoredAt.value && UndoShaped(s, f.req) && !CarriesForward(w, s, f)
    ensures Rested(w) ==> w.flying == multiset{}
  {
    AlwaysNow(o, log, w);
    assert BoundAlways(w, s);
    forall f | f in w.flying ensures f.at > s.restoredAt.value && CarriesUndo(w, s, f) && !CarriesForward(w, s, f) {
      ReleasedOnlyUndoes(w, s, f);
    }
    if Rested(w) { assert forall f :: f !in w.flying; }
  }

  /** In every run a bound lease that was released leaves every zone exactly on its baseline, and whatever
      is still in the network only undoes; a request's lifetime after the last undo nothing is left. */
  lemma ReleasedShowsBaseline(o: World, log: seq<Event>, w: World, s: State)
    requires RunsTo(o, log, w) && w.active == Some(s) && Bound(s) && s.status == Released
    ensures ShowsBaseline(s.baseline.value, w.live)
    ensures forall f :: f in w.flying ==> UndoShaped(s, f.req) && !CarriesForward(w, s, f)
    ensures Rested(w) ==> w.flying == multiset{}
  {
    AlwaysNow(o, log, w);
    assert BoundAlways(w, s);
    forall f | f in w.flying ensures CarriesUndo(w, s, f) && !CarriesForward(w, s, f) {
      ReleasedOnlyUndoes(w, s, f);
    }
    if Rested(w) { RestedIsEmpty(w); }
  }

  // ------------------------------------------------------------------ how long a lease stays accepted

  predicate AcceptedFor(w: World, op: OpId) { Holds(w, op) && w.active.value.status == Accepted }

  predicate EndsAcceptance(e: Event) { e.StartRound? || e.Reserve? }

  /** One event ends acceptance exactly when it starts a restore round or reserves the next lease. */
  lemma AcceptedStep(w: World, e: Event, op: OpId)
    requires AcceptedIsBound(w) && Enabled(w, e) && AcceptedFor(w, op)
    ensures AcceptedFor(Next(w, e), op) <==> !EndsAcceptance(e)
    ensures EndsAcceptance(e) ==> PastArmed(Next(w, e), op)
  {
  }

  predicate AcceptedIsBound(w: World) { w.active.Some? && w.active.value.status == Accepted ==> Bound(w.active.value) }

  lemma AcceptedIsBoundStep(w: World, e: Event)
    requires Enabled(w, e) && AcceptedIsBound(w)
    ensures AcceptedIsBound(Next(w, e))
  {
  }

  lemma AcceptedIsBoundNext(w: World, es: seq<Event>, n: nat)
    requires Legal(w, es) && n < |es| && AcceptedIsBound(At(w, es, n))
    ensures AcceptedIsBound(At(w, es, n + 1))
  {
    StepAt(w, es, n);
    AcceptedIsBoundStep(At(w, es, n), es[n]);
  }

  lemma AcceptedIsBoundAt(w: World, es: seq<Event>, n: nat)
    requires Init(w) && Legal(w, es) && n <= |es|
    ensures AcceptedIsBound(At(w, es, n))
  {
    var f := (m: nat) => Legal(w, es) && m <= |es| && AcceptedIsBound(At(w, es, m));
    StartsAt(w, es);
    forall m: nat | 0 <= m < n && f(m) ensures f(m + 1) { AcceptedIsBoundNext(w, es, m); }
    Carry(f, 0, n);
  }

  /** A lease past `armed` that is not accepted never is again. */
  lemma NotAcceptedStep(w: World, e: Event, op: OpId)
    requires Enabled(w, e) && PastArmed(w, op) && !AcceptedFor(w, op)
    ensures PastArmed(Next(w, e), op) && !AcceptedFor(Next(w, e), op)
  {
    PastArmedStep(w, e, op);
    if !Holds(w, op) {
      GoneStep(w, e, op);
    }
  }

  lemma NotAcceptedNext(w: World, es: seq<Event>, n: nat, op: OpId)
    requires Legal(w, es) && n < |es| && PastArmed(At(w, es, n), op) && !AcceptedFor(At(w, es, n), op)
    ensures PastArmed(At(w, es, n + 1), op) && !AcceptedFor(At(w, es, n + 1), op)
  {
    StepAt(w, es, n);
    NotAcceptedStep(At(w, es, n), es[n], op);
  }

  lemma NotAcceptedForever(w: World, es: seq<Event>, i: nat, j: nat, op: OpId)
    requires Legal(w, es) && i <= j <= |es| && PastArmed(At(w, es, i), op) && !AcceptedFor(At(w, es, i), op)
    ensures !AcceptedFor(At(w, es, j), op)
  {
    var f := (n: nat) => Legal(w, es) && n <= |es| && PastArmed(At(w, es, n), op) && !AcceptedFor(At(w, es, n), op);
    forall n: nat | i <= n < j && f(n) ensures f(n + 1) { NotAcceptedNext(w, es, n, op); }
    Carry(f, i, j);
  }

  lemma AcceptedNext(w: World, es: seq<Event>, n: nat, op: OpId)
    requires Init(w) && Legal(w, es) && n < |es| && AcceptedFor(At(w, es, n), op)
    ensures AcceptedFor(At(w, es, n + 1), op) <==> !EndsAcceptance(es[n])
    ensures EndsAcceptance(es[n]) ==> PastArmed(At(w, es, n + 1), op)
  {
    StepAt(w, es, n);
    AcceptedIsBoundAt(w, es, n);
    AcceptedStep(At(w, es, n), es[n], op);
  }

  /** An accepted lease is still accepted later exactly when no restore round was started and no lease
      reserved in between: `/restore` is the only way back, and there is none forward again. */
  lemma {:induction false} AcceptedStays(w: World, es: seq<Event>, i: nat, j: nat, op: OpId)
    requires Init(w) && Legal(w, es) && i <= j <= |es| && AcceptedFor(At(w, es, i), op)
    ensures AcceptedFor(At(w, es, j), op) <==> NoneEndsAcceptance(es[i..j])
    decreases j - i
  {
    if i < j {
      assert es[i..j] == [es[i]] + es[i + 1..j];
      AcceptedNext(w, es, i, op);
      if EndsAcceptance(es[i]) {
        NotAcceptedForever(w, es, i + 1, j, op);
      } else {
        AcceptedStays(w, es, i + 1, j, op);
      }
    }
  }

  predicate NoneEndsAcceptance(es: seq<Event>) { forall n :: 0 <= n < |es| ==> !EndsAcceptance(es[n]) }
}
