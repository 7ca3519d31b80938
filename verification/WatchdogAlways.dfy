/** What holds in every run of the cutover protocol, whenever its leases were reserved; and why a careful
    last reservation is enough for the rest. */
module WatchdogAlways {
  import opened Options
  import opened Routes
  import opened WatchdogProtocol
  import opened WatchdogSafety

  /** The stored record, whatever the provider shows. */
  ghost predicate ShapeOk(w: World, s: State) {
    && (s.plan.Some? <==> s.baseline.Some?)
    && (!Bound(s) ==> s.intents == [] && (s.status == Reserved || s.status == Released))
    && (s.status == Reserved ==> !Bound(s) && s.restoredAt.None?)
    && s.reservedAt <= w.clock && (s.restoredAt.Some? ==> s.reservedAt <= s.restoredAt.value)
    && (s.status == Reserved || s.status == Armed ==> s.scope.operationId !in w.history)
  }

  /** An undoing write of an earlier lease. */
  predicate Stray(w: World, s: State, f: Flight) {
    !f.req.Post? && f.at <= s.reservedAt && w.lastUndo.Some? && f.at <= w.lastUndo.value
  }

  /** The lease may have undoing writes of its own in the network. */
  predicate MayUndo(s: State) { Bound(s) && (InRound(s) || s.status == Released) }

  ghost predicate Own(w: World, s: State, f: Flight) {
    Bound(s) && (CarriesForward(w, s, f) || (MayUndo(s) && CarriesUndo(w, s, f)))
  }

  ghost predicate FlyingOk(w: World, s: State) { forall f :: f in w.flying ==> Stray(w, s, f) || Own(w, s, f) }

  /** The write of an acknowledged intent has left the network. */
  ghost predicate AckedLanded(w: World, s: State)
    requires Bound(s)
  {
    forall k :: 0 <= k < |s.intents| && s.intents[k].id.Some? ==> Copies(w, s, k) == 0
  }

  ghost predicate BoundAlways(w: World, s: State)
    requires Bound(s)
  {
    && WellBound(s.plan.value, s.baseline.value) && IntentsOk(s) && FencedOk(w, s)
    && (s.status == Armed || s.status == Accepted ==> AckedLanded(w, s))
    && (s.status == Accepted ==> AllAcked(s))
    && (s.status == Released ==> ShowsBaseline(s.baseline.value, w.live))
    && CreatedOk(w, s) && AddedAbsent(s, w.live)
  }

  /** A pattern the plan adds is nowhere at the provider before its intent is saved. */
  ghost predicate AddedAbsent(s: State, live: map<ZoneId, Table>)
    requires Bound(s)
  {
    forall c :: c in s.plan.value.routes && c.baselineRouteId.None? && !HasIntent(s, c) ==> !Listed(live, c)
  }

  ghost predicate LeaseAlways(w: World, s: State) {
    ShapeOk(w, s) && FlyingOk(w, s) && (Bound(s) ==> BoundAlways(w, s))
  }

  ghost predicate Ledger(w: World) { forall key :: key in w.sent ==> SentOk(w, key) }

  ghost predicate Always(w: World) {
    && LiveSane(w) && TimesOk(w) && Ledger(w) && PatternsOk(w)
    && (w.active.None? ==> w.flying == multiset{})
    && (w.active.Some? ==> LeaseAlways(w, w.active.value))
  }

  // ------------------------------------------------------------------ a route id keeps its pattern

  ghost predicate ListsPattern(live: map<ZoneId, Table>, z: ZoneId, id: RouteId, p: string) {
    z in live && id in live[z] && live[z][id].pattern == p
  }

  predicate PutsPattern(req: Request, z: ZoneId, id: RouteId, p: string) {
    req.Put? && req.zone == z && req.id == id && req.row.pattern == p
  }

  ghost predicate BaselineHas(s: State, z: ZoneId, id: RouteId, p: string) {
    s.baseline.Some? && exists zone, r :: zone in s.baseline.value && zone.id == z && r in zone.routes && r.id == id && r.pattern == p
  }

  ghost predicate IntentHas(s: State, z: ZoneId, id: RouteId, p: string) {
    exists k :: 0 <= k < |s.intents| && s.intents[k].id == Some(id) && s.intents[k].change.zoneId == z && s.intents[k].change.pattern == p
  }

  /** Somewhere the route of this id is known under pattern p: at the provider, in a write under way, in
      the baseline, or in the record of an intent. */
  ghost predicate Named(w: World, z: ZoneId, id: RouteId, p: string) {
    || ListsPattern(w.live, z, id, p)
    || (exists f :: f in w.flying && PutsPattern(f.req, z, id, p))
    || (w.active.Some? && (BaselineHas(w.active.value, z, id, p) || IntentHas(w.active.value, z, id, p)))
  }

  /** Every id known anywhere was issued, and its route has one pattern everywhere. */
  ghost predicate PatternsOk(w: World) {
    && (forall z, id, p :: Named(w, z, id, p) ==> id.n < w.issued)
    && (forall z, id, p, q :: Named(w, z, id, p) && Named(w, z, id, q) ==> p == q)
  }

  lemma NoNewNames(w: World, v: World)
    requires PatternsOk(w) && w.issued <= v.issued
    requires forall z, id, p :: Named(v, z, id, p) ==> Named(w, z, id, p)
    ensures PatternsOk(v)
  {
  }

  /** Fewer writes under way, the same tables, and a record that knows no more. */
  lemma SameNames(w: World, v: World)
    requires PatternsOk(w) && w.issued <= v.issued && v.live == w.live && forall f :: f in v.flying ==> f in w.flying
    requires v.active.Some? ==> forall z, id, p :: BaselineHas(v.active.value, z, id, p) || IntentHas(v.active.value, z, id, p) ==> Named(w, z, id, p)
    ensures PatternsOk(v)
  {
    forall z, id, p | Named(v, z, id, p) ensures Named(w, z, id, p) { }
    NoNewNames(w, v);
  }

  lemma LandedNames(w: World, req: Request, z: ZoneId, id: RouteId, p: string)
    requires ListsPattern(Landed(w.live, req, RouteId(w.issued)), z, id, p)
    ensures ListsPattern(w.live, z, id, p) || PutsPattern(req, z, id, p)
            || (req.Post? && id == RouteId(w.issued) && z == req.zone && p == req.row.pattern)
  {
  }

  lemma LandKeepsPatterns(w: World, f: Flight)
    requires PatternsOk(w) && Enabled(w, Land(f))
    ensures PatternsOk(Next(w, Land(f)))
  {
    var v := Next(w, Land(f));
    assert forall g :: g in v.flying ==> g in w.flying;
    forall z, id, p | Named(v, z, id, p)
      ensures Named(w, z, id, p) || (f.req.Post? && id == RouteId(w.issued) && z == f.req.zone && p == f.req.row.pattern)
    {
      if ListsPattern(v.live, z, id, p) { LandedNames(w, f.req, z, id, p); }
    }
  }

  lemma BindKeepsPatterns(w: World, plan: Plan, zones: seq<Zone>)
    requires PatternsOk(w) && Enabled(w, Bind(plan, zones)) && w.active.value.intents == []
    ensures PatternsOk(Next(w, Bind(plan, zones)))
  {
    var v := Next(w, Bind(plan, zones));
    forall z, id, p | BaselineHas(v.active.value, z, id, p) ensures ListsPattern(w.live, z, id, p) {
      BaselineListed(w.live, zones, v.active.value, z, id, p);
    }
    SameNames(w, v);
  }

  lemma BaselineListed(live: map<ZoneId, Table>, zones: seq<Zone>, s: State, z: ZoneId, id: RouteId, p: string)
    requires s.baseline == Some(zones) && BaselineHas(s, z, id, p) && ShowsBaseline(zones, live)
    requires forall a :: 0 <= a < |zones| ==> Distinct(zones[a].routes)
    ensures ListsPattern(live, z, id, p)
  {
    var zone, r :| zone in zones && zone.id == z && r in zone.routes && r.id == id && r.pattern == p;
    var a :| 0 <= a < |zones| && zones[a] == zone;
    TableHolds(zone.routes);
    var m :| 0 <= m < |zone.routes| && zone.routes[m] == r;
    assert live[zones[a].id] == TableOf(zones[a].routes);
  }

  /** What an intent replaces, the baseline has under the pattern the intent keeps. */
  lemma ReplacedIsNamed(s: State, k: nat)
    requires Bound(s) && WellBound(s.plan.value, s.baseline.value) && IntentsOk(s) && k < |s.intents| && s.intents[k].before.Some?
    ensures var i := s.intents[k]; i.before.value.pattern == i.change.pattern && BaselineHas(s, i.change.zoneId, i.before.value.id, i.change.pattern)
  {
    var zone := ZoneOfIntent(s, k);
    ReplacedRow(s, zone, k);
  }

  /** A write of the lease puts a route under the pattern the baseline has for it. */
  lemma SendKeepsPatterns(w: World, v: World, s: State, req: Request)
    requires PatternsOk(w) && w.active == Some(s) && v.active == w.active && v.live == w.live && v.issued == w.issued
    requires Bound(s) && WellBound(s.plan.value, s.baseline.value) && IntentsOk(s)
    requires RequestOk(s, req) && forall f :: f in v.flying ==> f in w.flying || f.req == req
    ensures PatternsOk(v)
  {
    if req.Put? {
      var k :| Replaces(s, k, req.zone, req.id) && (req.row == WorkerRow(s, k) || req.row == s.intents[k].before.value.ToRow());
      ReplacedIsNamed(s, k);
    }
    forall z, id, p | Named(v, z, id, p) ensures Named(w, z, id, p) { }
    NoNewNames(w, v);
  }

  lemma IdKeepsPatterns(w: World, v: World, s: State, t: State, k: nat, id: RouteId)
    requires PatternsOk(w) && w.active == Some(s) && v == w.(active := Some(t)) && Bound(s)
    requires k < |s.intents| && RowApplied(s, w.live, k, id) && t == s.(intents := s.intents[k := s.intents[k].(id := Some(id))])
    ensures PatternsOk(v)
  {
    forall z, x, p | IntentHas(t, z, x, p) ensures Named(w, z, x, p) {
      var m :| 0 <= m < |t.intents| && t.intents[m].id == Some(x) && t.intents[m].change.zoneId == z && t.intents[m].change.pattern == p;
      if m == k { assert ListsPattern(w.live, z, x, p); } else { assert IntentHas(s, z, x, p); }
    }
    SameNames(w, v);
  }

  /** A save that records no new id. */
  lemma SaveKeepsPatterns(w: World, v: World, s: State, t: State)
    requires PatternsOk(w) && w.active == Some(s) && v == w.(active := Some(t), readBack := v.readBack) && t.baseline == s.baseline
    requires forall k :: 0 <= k < |t.intents| && t.intents[k].id.Some? ==>
               k < |s.intents| && t.intents[k].id == s.intents[k].id && t.intents[k].change == s.intents[k].change
    ensures PatternsOk(v)
  {
    forall z, id, p | IntentHas(t, z, id, p) ensures IntentHas(s, z, id, p) { }
    SameNames(w, v);
  }

  // ------------------------------------------------------------------ requests arriving and getting lost

  /** Of a released lease only its own undoing writes are left. */
  lemma ReleasedOnlyUndoes(w: World, s: State, f: Flight)
    requires TimesOk(w) && LeaseAlways(w, s) && Bound(s) && f in w.flying
    requires s.restoredAt.Some? && s.restoredAt.value + FENCE_MS <= w.clock
    ensures CarriesUndo(w, s, f) && !CarriesForward(w, s, f) && f.at > s.restoredAt.value
  {
    NoForwardLeft(w, s, f);
  }

  lemma LandKeepsReleasedAlways(w: World, s: State, f: Flight)
    requires TimesOk(w) && LeaseAlways(w, s) && Bound(s) && f in w.flying && s.status == Released
    ensures ShowsBaseline(s.baseline.value, Landed(w.live, f.req, RouteId(w.issued)))
  {
    ReleasedOnlyUndoes(w, s, f);
    forall a | 0 <= a < |s.baseline.value|
      ensures var live := Landed(w.live, f.req, RouteId(w.issued));
              s.baseline.value[a].id in live && live[s.baseline.value[a].id] == TableOf(s.baseline.value[a].routes)
    {
      UndoFindsNothing(s, w.live, f.req, RouteId(w.issued), a);
    }
  }

  /** Time passes, requests leave: the record stays, and so does what it says. */
  lemma FewerKeepLease(w: World, v: World, s: State)
    requires LeaseAlways(w, s) && v.sent == w.sent && v.lastUndo == w.lastUndo && w.clock <= v.clock
    requires forall f :: v.flying[f] <= w.flying[f]
    requires forall op :: op in v.history && op !in w.history ==> Finished(s)
    requires Bound(s) ==> CreatedOk(v, s) && AddedAbsent(s, v.live) && (s.status == Released ==> ShowsBaseline(s.baseline.value, v.live))
    ensures LeaseAlways(v, s)
  {
    forall f | f in v.flying ensures Stray(v, s, f) || Own(v, s, f) {
      assert f in w.flying;
      if Own(w, s, f) { OwnStays(w, v, s, f); }
    }
    if Bound(s) { FewerKeepAcked(w, v, s); }
  }

  lemma OwnStays(w: World, v: World, s: State, f: Flight)
    requires Own(w, s, f) && v.sent == w.sent && v.lastUndo == w.lastUndo
    ensures Own(v, s, f)
  {
    if CarriesForward(w, s, f) {
      var k :| Carries(w, s, f, k);
      assert Carries(v, s, f, k);
    }
  }

  lemma FewerKeepAcked(w: World, v: World, s: State)
    requires Bound(s) && v.sent == w.sent && forall f :: v.flying[f] <= w.flying[f]
    ensures AckedLanded(w, s) ==> AckedLanded(v, s)
  {
    assert forall k :: 0 <= k < |s.intents| ==> Copies(v, s, k) <= Copies(w, s, k);
  }

  lemma SameLedger(w: World, v: World)
    requires Ledger(w) && v.sent == w.sent && v.active == w.active && (forall op :: op in w.history ==> op in v.history)
    ensures Ledger(v)
  {
    forall key | key in v.sent ensures SentOk(v, key) { assert SentOk(w, key); }
  }

  /** A world with fewer requests in the network, and the same record. */
  lemma FewerKeepAlways(w: World, v: World, s: State)
    requires Always(w) && w.active == v.active == Some(s) && v.sent == w.sent && v.history == w.history && v.lastUndo == w.lastUndo
    requires LiveSane(v) && TimesOk(v) && PatternsOk(v) && w.clock <= v.clock && forall f :: v.flying[f] <= w.flying[f]
    requires Bound(s) ==> CreatedOk(v, s) && AddedAbsent(s, v.live) && (s.status == Released ==> ShowsBaseline(s.baseline.value, v.live))
    ensures Always(v)
  {
    SameLedger(w, v);
    FewerKeepLease(w, v, s);
  }

  // ------------------------------------------------------------------ the patterns a plan adds

  /** Only a creating request can list a pattern that was not listed: whatever else arrives writes a route
      under the pattern it has. */
  lemma OnlyPostLists(w: World, f: Flight, c: Change)
    requires PatternsOk(w) && f in w.flying && !f.req.Post?
    ensures var live := Landed(w.live, f.req, RouteId(w.issued));
            && (Listed(live, c) ==> Listed(w.live, c))
            && forall id :: ListedOnlyAs(w.live, c, id) ==> ListedOnlyAs(live, c, id)
  {
    var live := Landed(w.live, f.req, RouteId(w.issued));
    forall id | ListsPattern(live, c.zoneId, id, c.pattern) ensures ListsPattern(w.live, c.zoneId, id, c.pattern) {
      LandedNames(w, f.req, c.zoneId, id, c.pattern);
      if !ListsPattern(w.live, c.zoneId, id, c.pattern) { PutKeepsPattern(w, f, c.zoneId, id, c.pattern); }
    }
    if Listed(live, c) {
      var id :| id in live[c.zoneId] && live[c.zoneId][id].pattern == c.pattern;
      assert ListsPattern(live, c.zoneId, id, c.pattern);
    }
    assert forall id :: ListsPattern(live, c.zoneId, id, c.pattern) ==> id in w.live[c.zoneId];
  }

  lemma PutKeepsPattern(w: World, f: Flight, z: ZoneId, id: RouteId, p: string)
    requires PatternsOk(w) && f in w.flying && PutsPattern(f.req, z, id, p)
    requires ListsPattern(Landed(w.live, f.req, RouteId(w.issued)), z, id, p)
    ensures ListsPattern(w.live, z, id, p)
  {
    assert Named(w, z, id, p);
    assert ListsPattern(w.live, z, id, w.live[z][id].pattern) && Named(w, z, id, w.live[z][id].pattern);
  }

  lemma PostElsewhere(w: World, s: State, m: nat, issued: RouteId, c: Change)
    requires Bound(s) && m < |s.intents| && !SameKey(s.intents[m].change, c)
    requires s.intents[m].before.None?
    ensures var live := Landed(w.live, Forward(s, m), issued);
            && (Listed(live, c) ==> Listed(w.live, c))
            && forall id :: ListedOnlyAs(w.live, c, id) ==> ListedOnlyAs(live, c, id)
  {
  }

  /** A creating request in the network is the forward write of an intent of the lease. */
  lemma PostIsForward(w: World, s: State, f: Flight) returns (m: nat)
    requires FlyingOk(w, s) && f in w.flying && f.req.Post?
    ensures Bound(s) && Carries(w, s, f, m) && s.intents[m].before.None?
  {
    assert Own(w, s, f) && CarriesForward(w, s, f);
    m :| Carries(w, s, f, m);
  }

  lemma LandKeepsAdded(w: World, v: World, s: State, f: Flight)
    requires PatternsOk(w) && Bound(s) && FlyingOk(w, s) && BoundAlways(w, s) && f in w.flying
    requires v.flying == w.flying - multiset{f} && v.sent == w.sent && v.live == Landed(w.live, f.req, RouteId(w.issued))
    ensures CreatedOk(v, s) && AddedAbsent(s, v.live)
  {
    forall k | 0 <= k < |s.intents| && s.intents[k].before.None? ensures CreationOk(v, s, k) {
      LandKeepsCreation(w, v, s, f, k);
    }
    forall c | c in s.plan.value.routes && c.baselineRouteId.None? && !HasIntent(s, c) ensures !Listed(v.live, c) {
      if f.req.Post? {
        var m := PostIsForward(w, s, f);
        PostElsewhere(w, s, m, RouteId(w.issued), c);
      } else {
        OnlyPostLists(w, f, c);
      }
    }
  }

  lemma LandKeepsCreation(w: World, v: World, s: State, f: Flight, k: nat)
    requires PatternsOk(w) && Bound(s) && FlyingOk(w, s) && IntentsOk(s) && f in w.flying
    requires k < |s.intents| && s.intents[k].before.None? && CreationOk(w, s, k)
    requires v.flying == w.flying - multiset{f} && v.sent == w.sent && v.live == Landed(w.live, f.req, RouteId(w.issued))
    ensures CreationOk(v, s, k)
  {
    if Carries(w, s, f, k) {
      assert Copies(v, s, k) == 0;
    } else {
      if f.req.Post? {
        var m := PostIsForward(w, s, f);
        DifferentKeys(s, k, m);
        PostElsewhere(w, s, m, RouteId(w.issued), s.intents[k].change);
      } else {
        OnlyPostLists(w, f, s.intents[k].change);
      }
      CreationSpared(w, v, s, f, k);
    }
  }

  lemma LandKeepsAlways(w: World, f: Flight)
    requires Always(w) && Enabled(w, Land(f))
    ensures Always(Next(w, Land(f)))
  {
    var v, s := Next(w, Land(f)), w.active.value;
    LeavingKeepsTimes(w, v, f);
    LandKeepsSane(w, f.req, RouteId(w.issued));
    LandKeepsPatterns(w, f);
    if Bound(s) && s.status == Released { LandKeepsReleasedAlways(w, s, f); }
    if Bound(s) { LandKeepsAdded(w, v, s, f); }
    FewerKeepAlways(w, v, s);
  }

  lemma VanishKeepsAlways(w: World, f: Flight)
    requires Always(w) && Enabled(w, Vanish(f))
    ensures Always(Next(w, Vanish(f)))
  {
    var v, s := Next(w, Vanish(f)), w.active.value;
    LeavingKeepsTimes(w, v, f);
    SameNames(w, v);
    if Bound(s) { FewerKeepCreated(w, v, s); }
    FewerKeepAlways(w, v, s);
  }

  lemma BookkeepingKeepsAlways(w: World, e: Event)
    requires Always(w) && Enabled(w, e) && (e.Tick? || e.SetAlarm? || e.ClearAlarm? || e.Archive? || e.ReadBack?)
    ensures Always(Next(w, e))
  {
    var v := Next(w, e);
    SameLedger(w, v);
    SameNames(w, v);
    if w.active.Some? && Bound(w.active.value) { FewerKeepCreated(w, v, w.active.value); }
    if w.active.Some? { FewerKeepLease(w, v, w.active.value); }
  }

  // ------------------------------------------------------------------ reservations

  /** Whatever a finished lease leaves in the network is an undoing write. */
  lemma FinishedLeavesUndos(w: World, f: Flight)
    requires Always(w) && (w.active.Some? ==> Finished(w.active.value)) && f in w.flying
    ensures !f.req.Post? && f.at <= w.clock && w.lastUndo.Some? && f.at <= w.lastUndo.value
  {
    var s := w.active.value;
    if Own(w, s, f) && CarriesForward(w, s, f) {
      if s.status == Accepted { AcceptedHasLanded(w, s, f); } else { NoForwardLeft(w, s, f); }
    }
  }

  lemma AcceptedHasLanded(w: World, s: State, f: Flight)
    requires Bound(s) && AckedLanded(w, s) && AllAcked(s) && f in w.flying
    ensures !CarriesForward(w, s, f)
  {
    forall k ensures !Carries(w, s, f, k) { }
  }

  lemma ReserveKeepsAlways(w: World, scope: Scope)
    requires Always(w) && Enabled(w, Reserve(scope))
    ensures Always(Next(w, Reserve(scope)))
  {
    var v := Next(w, Reserve(scope));
    forall key | key in v.sent ensures SentOk(v, key) { assert SentOk(w, key); }
    SameNames(w, v);
    forall f | f in v.flying ensures Stray(v, v.active.value, f) { FinishedLeavesUndos(w, f); }
  }

  /** Once the lifetime of a request has passed since the last undoing write, nothing is left. */
  lemma RestedIsEmpty(w: World)
    requires Always(w) && Rested(w) && (w.active.Some? ==> Finished(w.active.value))
    ensures w.flying == multiset{}
  {
    forall f ensures f !in w.flying {
      if f in w.flying {
        FinishedLeavesUndos(w, f);
        assert false;
      }
    }
  }

  /** A careful reservation starts from a clean slate, whatever came before. */
  lemma RestedStartsClean(w: World, scope: Scope)
    requires Always(w) && Enabled(w, Reserve(scope)) && Rested(w)
    ensures Inv(Next(w, Reserve(scope)))
  {
    var v := Next(w, Reserve(scope));
    RestedIsEmpty(w);
    forall key | key in v.sent ensures SentOk(v, key) { assert SentOk(w, key); }
  }

  // ------------------------------------------------------------------ saves of the record

  lemma AddedNotShown(live: map<ZoneId, Table>, plan: Plan, zones: seq<Zone>, c: Change)
    requires WellBound(plan, zones) && ShowsBaseline(zones, live) && c in plan.routes && c.baselineRouteId.None?
    ensures !Listed(live, c)
  {
    assert GroundedChange(c, zones);
    FindZoneHits(zones, c.zoneId);
    var zone := FindZone(zones, c.zoneId).value;
    var a :| 0 <= a < |zones| && zones[a] == zone;
    TableHolds(zone.routes);
    assert forall m :: 0 <= m < |zone.routes| ==> zone.routes[m] in zone.routes;
  }

  lemma BindKeepsAlways(w: World, plan: Plan, zones: seq<Zone>)
    requires Always(w) && Enabled(w, Bind(plan, zones))
    ensures Always(Next(w, Bind(plan, zones)))
  {
    var v := Next(w, Bind(plan, zones));
    BindKeepsPatterns(w, plan, zones);
    forall c | c in plan.routes && c.baselineRouteId.None? ensures !Listed(w.live, c) { AddedNotShown(w.live, plan, zones, c); }
    forall key | key in v.sent ensures SentOk(v, key) { assert SentOk(w, key); }
    assert BoundAlways(v, v.active.value);
  }

  /** What a save of a bound lease's record leaves as it was. */
  ghost predicate Saves(w: World, v: World, s: State, t: State) {
    && w.active == Some(s) && v == w.(active := Some(t), readBack := v.readBack)
    && Extends(s, t) && t.scope == s.scope && t.reservedAt == s.reservedAt
    && (MayUndo(s) ==> MayUndo(t)) && t.status != Reserved && (t.status == Armed ==> s.status == Armed)
    && (t.restoredAt == s.restoredAt || t.restoredAt == Some(w.clock))
  }

  lemma SaveKeepsFlying(w: World, v: World, s: State, t: State)
    requires Saves(w, v, s, t) && FlyingOk(w, s)
    ensures FlyingOk(v, t)
  {
    forall f | f in v.flying ensures Stray(v, t, f) || Own(v, t, f) {
      if !Stray(w, s, f) {
        if CarriesForward(w, s, f) { ExtendsKeepsForward(w, v, s, t, f); } else { ExtendsKeepsUndo(s, t, f.req); }
      }
    }
  }

  /** The rest of a save is about the record alone. */
  lemma SaveKeepsAlways(w: World, v: World, s: State, t: State)
    requires Always(w) && Saves(w, v, s, t) && PatternsOk(v)
    requires IntentsOk(t) && FencedOk(v, t) && (t.status == Armed || t.status == Accepted ==> AckedLanded(v, t))
    requires t.status == Accepted ==> AllAcked(t)
    requires CreatedOk(v, t) && (t.status == Released ==> ShowsBaseline(t.baseline.value, v.live))
    ensures Always(v)
  {
    SaveKeepsFlying(w, v, s, t);
    SaveKeepsAbsent(s, t, w.live);
    SentSurvives(w, v, s, t);
    assert BoundAlways(v, t);
  }

  lemma SaveKeepsAbsent(s: State, t: State, live: map<ZoneId, Table>)
    requires Extends(s, t) && AddedAbsent(s, live)
    ensures AddedAbsent(t, live)
  {
    forall c | HasIntent(s, c) ensures HasIntent(t, c) {
      var k :| 0 <= k < |s.intents| && SameKey(s.intents[k].change, c);
      assert SameKey(t.intents[k].change, c);
    }
  }

  /** A new intent's write was never sent, and what it adds is not listed. */
  lemma NewIntentKeepsCreated(w: World, v: World, s: State, t: State, c: Change)
    requires Bound(s) && Bound(t) && CreatedOk(w, s) && t.plan == s.plan && t.scope == s.scope && |t.intents| == |s.intents| + 1
    requires forall k :: 0 <= k < |s.intents| ==> t.intents[k] == s.intents[k]
    requires var i := t.intents[|s.intents|]; i.change == c && i.id.None? && (i.before.None? ==> !Listed(w.live, c))
    requires KeyOf(s, c) !in w.sent && v.flying == w.flying && v.sent == w.sent && v.live == w.live
    ensures CreatedOk(v, t)
  {
    forall k | 0 <= k < |t.intents| && t.intents[k].before.None? ensures CreationOk(v, t, k) {
      if k < |s.intents| { CreationCarried(w, v, s, t, k); }
    }
  }

  /** A change without an intent was never sent forward. */
  lemma NeverSent(w: World, s: State, c: Change)
    requires Ledger(w) && w.active == Some(s) && s.scope.operationId !in w.history && !HasIntent(s, c)
    ensures KeyOf(s, c) !in w.sent
  {
    forall key | key in w.sent ensures key != KeyOf(s, c) { assert SentOk(w, key); }
  }

  /** A planned change whose intent replaces nothing names no route of the baseline. */
  lemma AddedNamesNone(s: State, c: Change)
    requires Bound(s) && WellBound(s.plan.value, s.baseline.value) && c in s.plan.value.routes
    requires BeforeOf(s.baseline.value, c).None?
    ensures c.baselineRouteId.None?
  {
    assert GroundedChange(c, s.baseline.value);
    var zone := FindZone(s.baseline.value, c.zoneId).value;
    FindZoneHits(s.baseline.value, c.zoneId);
    if c.baselineRouteId.Some? { FindRouteHits(zone.routes, c.baselineRouteId.value); }
  }

  lemma SaveIntentKeepsAlways(w: World, c: Change)
    requires Always(w) && Enabled(w, SaveIntent(c))
    ensures Always(Next(w, SaveIntent(c)))
  {
    var v := Next(w, SaveIntent(c));
    var s, t := w.active.value, v.active.value;
    assert BoundAlways(w, s);
    SavedIntentsOk(w, s, c);
    SaveKeepsPatterns(w, v, s, t);
    FenceKept(w, v, s, t);
    LongerKeepsAcked(w, v, s, t);
    NeverSent(w, s, c);
    if BeforeOf(s.baseline.value, c).None? { AddedNamesNone(s, c); }
    NewIntentKeepsCreated(w, v, s, t, c);
    SaveKeepsAlways(w, v, s, t);
  }

  lemma LongerKeepsAcked(w: World, v: World, s: State, t: State)
    requires Extends(s, t) && AckedLanded(w, s) && t.scope == s.scope && v.flying == w.flying && v.sent == w.sent
    requires forall k :: 0 <= k < |t.intents| && t.intents[k].id.Some? ==> k < |s.intents| && t.intents[k] == s.intents[k]
    ensures AckedLanded(v, t)
  {
    forall k | 0 <= k < |t.intents| && t.intents[k].id.Some? ensures Copies(v, t, k) == 0 {
      assert Copies(v, t, k) == Copies(w, s, k);
    }
  }

  lemma RecordIdKeepsAlways(w: World, e: Event)
    requires Always(w) && Enabled(w, e) && (e.Ack? || e.NoteId?)
    ensures Always(Next(w, e))
  {
    var v := Next(w, e);
    var s, t := w.active.value, v.active.value;
    assert BoundAlways(w, s);
    IdEditKeepsIntents(s, t, e.k, e.id);
    IdKeepsPatterns(w, v, s, t, e.k, e.id);
    FenceKept(w, v, s, t);
    IdEditKeepsCreated(w, v, s, t, e.k, e.id);
    if e.Ack? { AckIsLanded(w, v, s, t, e.k, e.id); }
    SaveKeepsAlways(w, v, s, t);
  }

  lemma AckIsLanded(w: World, v: World, s: State, t: State, k: nat, id: RouteId)
    requires Bound(s) && AckedLanded(w, s) && k < |s.intents| && Copies(w, s, k) == 0
    requires t == s.(intents := s.intents[k := s.intents[k].(id := Some(id))]) && v.flying == w.flying && v.sent == w.sent
    ensures AckedLanded(v, t)
  {
    forall m | 0 <= m < |t.intents| && t.intents[m].id.Some? ensures Copies(v, t, m) == 0 {
      assert Copies(v, t, m) == Copies(w, s, m);
    }
  }

  lemma RoundKeepsAlways(w: World, e: Event)
    requires Always(w) && Enabled(w, e) && (e.MarkFailed? || e.StartRound? || e.Wake?)
    ensures Always(Next(w, e))
  {
    var v := Next(w, e);
    var s, t := w.active.value, v.active.value;
    assert BoundAlways(w, s);
    RestoringRecord(w, s, e);
    RoundIsSave(w, v, s, t, e);
    SameIdsKeepIntents(s, t);
    SameIdsKeepCreated(w, v, s, t);
    SaveKeepsPatterns(w, v, s, t);
    FenceKept(w, v, s, t);
    SaveKeepsAlways(w, v, s, t);
  }

  lemma RoundIsSave(w: World, v: World, s: State, t: State, e: Event)
    requires Enabled(w, e) && (e.MarkFailed? || e.StartRound? || e.Wake?) && v == Next(w, e) && w.active == Some(s) && v.active == Some(t)
    requires Bound(s)
    ensures Saves(w, v, s, t)
  {
  }

  lemma SettleKeepsAlways(w: World, e: Event)
    requires Always(w) && Enabled(w, e) && (e.Accept? || e.Release?)
    ensures Always(Next(w, e))
  {
    assert BoundAlways(w, w.active.value);
    SettledKeepsAlways(w, Next(w, e), w.active.value, Next(w, e).active.value);
  }

  lemma SettledKeepsAlways(w: World, v: World, s: State, t: State)
    requires Always(w) && w.active == Some(s) && Bound(s) && v == w.(active := Some(t))
    requires t == s.(status := t.status, acceptedReport := t.acceptedReport)
    requires if t.status == Accepted then s.status == Armed && FullyApplied(s, w.live)
             else t.status == Released && Outlasted(s, w.clock) && ShowsBaseline(s.baseline.value, w.live)
    ensures Always(v)
  {
    assert BoundAlways(w, s);
    SameIdsKeepIntents(s, t);
    SameIdsKeepCreated(w, v, s, t);
    SaveKeepsPatterns(w, v, s, t);
    if t.status == Accepted { LongerKeepsAcked(w, v, s, t); }
    SaveKeepsAlways(w, v, s, t);
  }

  lemma FreeKeepsAlways(w: World)
    requires Always(w) && Enabled(w, FreeUnbound)
    ensures Always(Next(w, FreeUnbound))
  {
    var v := Next(w, FreeUnbound);
    forall key | key in v.sent ensures SentOk(v, key) { assert SentOk(w, key); }
    SaveKeepsPatterns(w, v, w.active.value, v.active.value);
  }

  // ------------------------------------------------------------------ requests sent

  lemma SendForwardKeepsAlways(w: World)
    requires Always(w) && Enabled(w, SendForward)
    ensures Always(Next(w, SendForward))
  {
    OneForwardKeepsAlways(w, Next(w, SendForward), w.active.value, |w.active.value.intents| - 1);
  }

  lemma OneForwardKeepsAlways(w: World, v: World, s: State, n: nat)
    requires Always(w) && w.active == Some(s) && Bound(s) && s.status == Armed && n < |s.intents| && SendsOnly(w, v, s, n)
    ensures Always(v)
  {
    assert BoundAlways(w, s);
    ForwardIsOk(s, n);
    SendKeepsPatterns(w, v, s, Forward(s, n));
    SendKeepsTimes(w, v, s, n);
    SendKeepsLedger(w, v, s, n);
    SendKeepsFlying(w, v, s, n);
    SendKeepsAcked(w, v, s, n);
    ForwardKeepsCreated(w, v, s, n);
    SendingKeepsLease(w, v, s);
  }

  lemma SendKeepsFlying(w: World, v: World, s: State, n: nat)
    requires Bound(s) && IntentsOk(s) && n < |s.intents| && SendsOnly(w, v, s, n) && FlyingOk(w, s)
    ensures FlyingOk(v, s)
  {
    forall f | f in v.flying ensures Stray(v, s, f) || Own(v, s, f) {
      if f == Flight(Forward(s, n), w.clock) {
        assert Carries(v, s, f, n);
      } else {
        assert f in w.flying;
        if CarriesForward(w, s, f) { OldForwardStays(w, v, s, n, f); }
      }
    }
  }

  lemma OldForwardStays(w: World, v: World, s: State, n: nat, f: Flight)
    requires Bound(s) && IntentsOk(s) && n < |s.intents| && SendsOnly(w, v, s, n) && CarriesForward(w, s, f)
    ensures CarriesForward(v, s, f)
  {
    var k :| Carries(w, s, f, k);
    if k != n { DifferentKeys(s, k, n); }
    assert Carries(v, s, f, k);
  }

  lemma SendKeepsAcked(w: World, v: World, s: State, n: nat)
    requires Bound(s) && IntentsOk(s) && n < |s.intents| && SendsOnly(w, v, s, n) && AckedLanded(w, s)
    ensures AckedLanded(v, s)
  {
    forall k | 0 <= k < |s.intents| && s.intents[k].id.Some? ensures Copies(v, s, k) == 0 {
      OthersForwardDiffer(s, k, n);
      DifferentKeys(s, k, n);
      assert Copies(v, s, k) == Copies(w, s, k);
    }
  }

  lemma ForwardKeepsCreated(w: World, v: World, s: State, n: nat)
    requires Bound(s) && IntentsOk(s) && n < |s.intents| && SendsOnly(w, v, s, n) && FlyingOk(w, s) && CreatedOk(w, s)
    ensures CreatedOk(v, s)
  {
    forall k | 0 <= k < |s.intents| && s.intents[k].before.None? ensures CreationOk(v, s, k) {
      assert CreationOk(w, s, k);
      if k != n {
        OthersForwardDiffer(s, k, n);
        DifferentKeys(s, k, n);
        assert Copies(v, s, k) == Copies(w, s, k);
      } else {
        NotYetFlying(w, s, n);
        assert Copies(v, s, n) == 1;
      }
    }
  }

  lemma NotYetFlying(w: World, s: State, n: nat)
    requires Bound(s) && IntentsOk(s) && n < |s.intents| && s.intents[n].before.None? && FlyingOk(w, s)
    requires KeyOf(s, s.intents[n].change) !in w.sent
    ensures Flight(Forward(s, n), w.clock) !in w.flying
  {
    if Flight(Forward(s, n), w.clock) in w.flying {
      var m := PostIsForward(w, s, Flight(Forward(s, n), w.clock));
      if m != n { OthersForwardDiffer(s, m, n); }
    }
  }

  lemma UndoKeepsCreated(w: World, v: World, s: State, req: Request)
    requires Bound(s) && CreatedOk(w, s) && !req.Post? && v.flying == w.flying + multiset{Flight(req, w.clock)}
    requires v.sent == w.sent && v.live == w.live
    ensures CreatedOk(v, s)
  {
    forall k | 0 <= k < |s.intents| && s.intents[k].before.None? ensures CreationOk(v, s, k) {
      assert CreationOk(w, s, k) && Copies(v, s, k) == Copies(w, s, k);
    }
  }

  lemma SendRestoreKeepsAlways(w: World, req: Request)
    requires Always(w) && Enabled(w, SendRestore(req))
    ensures Always(Next(w, SendRestore(req)))
  {
    OneUndoKeepsAlways(w, Next(w, SendRestore(req)), w.active.value, req);
  }

  lemma OneUndoKeepsAlways(w: World, v: World, s: State, req: Request)
    requires Always(w) && w.active == Some(s) && Bound(s) && s.status == Restoring && Undoes(s, req)
    requires v == w.(flying := w.flying + multiset{Flight(req, w.clock)}, lastUndo := Some(w.clock))
    ensures Always(v)
  {
    assert BoundAlways(w, s);
    UndoIsShaped(s, req);
    SendKeepsPatterns(w, v, s, req);
    UndoKeepsTimes(w, v, req);
    SameLedger(w, v);
    UndoKeepsFlying(w, v, s, req);
    UndoKeepsCreated(w, v, s, req);
    SendingKeepsLease(w, v, s);
  }

  /** A world that differs only in what was sent. */
  lemma SendingKeepsLease(w: World, v: World, s: State)
    requires LeaseAlways(w, s) && Bound(s) && v == w.(sent := v.sent, flying := v.flying, lastUndo := v.lastUndo)
    requires FlyingOk(v, s) && FencedOk(v, s) && CreatedOk(v, s) && (s.status == Armed || s.status == Accepted ==> AckedLanded(v, s))
    ensures LeaseAlways(v, s)
  {
  }

  lemma UndoKeepsFlying(w: World, v: World, s: State, req: Request)
    requires FlyingOk(w, s) && TimesOk(w) && MayUndo(s) && UndoShaped(s, req)
    requires v == w.(flying := w.flying + multiset{Flight(req, w.clock)}, lastUndo := Some(w.clock))
    ensures FlyingOk(v, s)
  {
    forall f | f in v.flying ensures Stray(v, s, f) || Own(v, s, f) {
      if f != Flight(req, w.clock) {
        assert f in w.flying;
        if CarriesForward(w, s, f) { ExtendsKeepsForward(w, v, s, s, f); }
      }
    }
  }

  // ------------------------------------------------------------------ every run

  lemma SaveEventKeepsAlways(w: World, e: Event)
    requires Always(w) && Enabled(w, e)
    requires e.Bind? || e.SaveIntent? || e.Ack? || e.NoteId? || e.MarkFailed? || e.StartRound? || e.Wake? || e.Accept? || e.Release? || e.FreeUnbound?
    ensures Always(Next(w, e))
  {
    if e.Bind? {
      BindKeepsAlways(w, e.plan, e.zones);
    } else if e.SaveIntent? {
      SaveIntentKeepsAlways(w, e.change);
    } else if e.Ack? || e.NoteId? {
      RecordIdKeepsAlways(w, e);
    } else if e.Accept? || e.Release? {
      SettleKeepsAlways(w, e);
    } else if e.FreeUnbound? {
      FreeKeepsAlways(w);
    } else {
      RoundKeepsAlways(w, e);
    }
  }

  /** No enabled event breaks it, reservations included. */
  lemma NextKeepsAlways(w: World, e: Event)
    requires Always(w) && Enabled(w, e)
    ensures Always(Next(w, e))
  {
    if e.Reserve? {
      ReserveKeepsAlways(w, e.scope);
    } else if e.SendForward? {
      SendForwardKeepsAlways(w);
    } else if e.SendRestore? {
      SendRestoreKeepsAlways(w, e.req);
    } else if e.Land? {
      LandKeepsAlways(w, e.flight);
    } else if e.Vanish? {
      VanishKeepsAlways(w, e.flight);
    } else if e.Tick? || e.SetAlarm? || e.ClearAlarm? || e.Archive? || e.ReadBack? {
      BookkeepingKeepsAlways(w, e);
    } else {
      SaveEventKeepsAlways(w, e);
    }
  }

  lemma {:induction false} AlwaysAlongRun(w: World, es: seq<Event>)
    requires Init(w) && Legal(w, es)
    ensures Always(After(w, es).value)
  {
    if es == [] {
      InitAlways(w);
    } else {
      var n := |es| - 1;
      AlwaysAlongRun(w, es[..n]);
      NextKeepsAlways(After(w, es[..n]).value, es[n]);
    }
  }

  lemma InitAlways(w: World)
    requires Init(w)
    ensures Always(w)
  {
    forall z, id, p | Named(w, z, id, p) ensures ListsPattern(w.live, z, id, p) { }
  }

  lemma AlwaysNow(o: World, log: seq<Event>, w: World)
    requires RunsTo(o, log, w)
    ensures Always(w)
  {
    RunEnds(o, log, w);
    AlwaysAlongRun(o, log);
  }

  // ------------------------------------------------------------------ careful runs

  /** The full invariant holds after every run whose last reservation was careful, whatever the earlier
      ones were. */
  lemma {:induction false} InvAlongRun(w: World, es: seq<Event>)
    requires Init(w) && Legal(w, es) && Careful(w, es)
    ensures Inv(After(w, es).value)
  {
    if es == [] {
      InitInv(w);
    } else {
      var n := |es| - 1;
      var before, e := es[..n], es[n];
      assert es == before + [e];
      if e.Reserve? {
        ReservedLast(w, before, e);
        AlwaysAlongRun(w, before);
        RestedStartsClean(After(w, before).value, e.scope);
      } else {
        NotReserved(w, before, e);
        InvAlongRun(w, before);
        NextKeepsInv(After(w, before).value, e);
      }
    }
  }

  lemma InvNow(o: World, log: seq<Event>, w: World)
    requires CarefulTo(o, log, w)
    ensures Inv(w)
  {
    RunEnds(o, log, w);
    InvAlongRun(o, log);
  }
}
