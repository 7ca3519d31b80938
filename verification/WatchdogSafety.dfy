/** What every event of the cutover protocol keeps true. */
module WatchdogSafety {
  import opened Options
  import opened Routes
  import opened WatchdogProtocol

  /** Intent k stands for a planned change against this baseline. */
  ghost predicate IntentOk(s: State, k: nat)
    requires Bound(s) && k < |s.intents|
  {
    var i := s.intents[k];
    && i.change in s.plan.value.routes
    && i.before == BeforeOf(s.baseline.value, i.change)
    && (i.id.Some? ==> if i.before.Some? then i.id.value == i.before.value.id else !BaseId(s, i.id.value))
  }

  ghost predicate IntentsOk(s: State)
    requires Bound(s)
  {
    && (forall k :: 0 <= k < |s.intents| ==> IntentOk(s, k))
    && (forall k, m :: 0 <= k < m < |s.intents| ==> !SameKey(s.intents[k].change, s.intents[m].change))
  }

  /** One zone shows its baseline with some of the saved intents applied: a baseline route is
      untouched or carries its replacement, and any other route is one an intent added. */
  ghost predicate ZoneOk(s: State, zone: Zone, t: Table)
    requires Bound(s)
  {
    var base := TableOf(zone.routes);
    && UniquePatterns(t)
    && (forall id :: id in base ==> id in t && (t[id] == base[id] || Replaced(s, zone.id, id, t[id])))
    && (forall id :: id in t && id !in base ==> Added(s, zone.id, t[id]) && !BaseId(s, id))
  }

  ghost predicate Replaced(s: State, z: ZoneId, id: RouteId, row: Row)
    requires Bound(s)
  {
    exists k :: Replaces(s, k, z, id) && row == WorkerRow(s, k)
  }

  ghost predicate Added(s: State, z: ZoneId, row: Row)
    requires Bound(s)
  {
    exists k :: Creates(s, k, z) && row == WorkerRow(s, k)
  }

  ghost predicate LiveOk(s: State, live: map<ZoneId, Table>)
    requires Bound(s)
  {
    forall a :: 0 <= a < |s.baseline.value| ==>
      s.baseline.value[a].id in live && ZoneOk(s, s.baseline.value[a], live[s.baseline.value[a].id])
  }

  /** A request in the network applies or undoes a saved intent. */
  ghost predicate RequestOk(s: State, req: Request)
    requires Bound(s)
  {
    match req
    case Put(z, id, row) => exists k :: Replaces(s, k, z, id) && (row == WorkerRow(s, k) || row == s.intents[k].before.value.ToRow())
    case Post(z, row) => Added(s, z, row)
    case Delete(z, id) => !BaseId(s, id)
  }

  ghost predicate Carries(w: World, s: State, f: Flight, k: int)
    requires Bound(s)
  {
    && 0 <= k < |s.intents| && KeyOf(s, s.intents[k].change) in w.sent
    && f == ForwardFlight(w.sent, s, k)
  }

  /** The flight is the forward write of some intent. */
  ghost predicate CarriesForward(w: World, s: State, f: Flight)
    requires Bound(s)
  {
    exists k :: Carries(w, s, f, k)
  }

  predicate InBaseline(s: State, z: ZoneId)
    requires Bound(s)
  {
    exists a :: 0 <= a < |s.baseline.value| && s.baseline.value[a].id == z
  }

  /** The request writes what the baseline of its zone has, or deletes what it does not have. */
  ghost predicate UndoShaped(s: State, req: Request)
    requires Bound(s)
  {
    match req
    case Put(z, id, row) => exists k :: Replaces(s, k, z, id) && row == s.intents[k].before.value.ToRow()
    case Post(_, _) => false
    case Delete(z, id) => InBaseline(s, z) && !BaseId(s, id)
  }

  /** The flight is an undoing write, no younger than the last one sent. */
  ghost predicate CarriesUndo(w: World, s: State, f: Flight)
    requires Bound(s)
  {
    UndoShaped(s, f.req) && w.lastUndo.Some? && f.at <= w.lastUndo.value
  }

  /** Whatever is in the network carries a saved intent forward or undoes one. */
  ghost predicate NetworkOk(w: World, s: State)
    requires Bound(s)
  {
    forall f :: f in w.flying ==> CarriesForward(w, s, f) || CarriesUndo(w, s, f)
  }

  /** While armed, all that flies is the single forward write of an unacknowledged intent. */
  ghost predicate FlightOk(w: World, s: State)
    requires Bound(s)
  {
    && (forall f :: f in w.flying ==> Unacked(w, s, f))
    && (forall k :: 0 <= k < |s.intents| ==> Copies(w, s, k) <= 1)
  }

  ghost predicate Unacked(w: World, s: State, f: Flight)
    requires Bound(s)
  {
    exists k :: Carries(w, s, f, k) && s.intents[k].id.None?
  }

  /** While armed, every acknowledged intent shows at the provider. */
  ghost predicate AckedShown(s: State, live: map<ZoneId, Table>)
    requires Bound(s)
  {
    forall k :: 0 <= k < |s.intents| && s.intents[k].id.Some? ==> RowApplied(s, live, k, s.intents[k].id.value)
  }

  ghost predicate ArmedOk(w: World, s: State)
    requires Bound(s)
  {
    FlightOk(w, s) && AckedShown(s, w.live)
  }

  ghost predicate Settled(s: State, live: map<ZoneId, Table>)
    requires Bound(s)
  {
    FullyApplied(s, live) && AckedShown(s, live)
  }

  /** A lease let go leaves the provider exactly on the plan or exactly on the baseline. */
  ghost predicate LetGo(s: State, live: map<ZoneId, Table>)
    requires Bound(s)
  {
    && (s.status == Accepted ==> Settled(s, live))
    && (s.status == Released ==> ShowsBaseline(s.baseline.value, live))
  }

  /** A pattern the plan adds appears at the provider only through its one creating request, and
      under the recorded id once one is recorded. */
  ghost predicate CreatedOk(w: World, s: State)
    requires Bound(s)
  {
    forall k :: 0 <= k < |s.intents| && s.intents[k].before.None? ==> CreationOk(w, s, k)
  }

  ghost predicate CreationOk(w: World, s: State, k: nat)
    requires Bound(s) && k < |s.intents|
  {
    var c := s.intents[k].change;
    && Copies(w, s, k) <= 1
    && (KeyOf(s, c) !in w.sent || Copies(w, s, k) > 0 ==> !Listed(w.live, c))
    && (s.intents[k].id.Some? ==> Copies(w, s, k) == 0 && ListedOnlyAs(w.live, c, s.intents[k].id.value))
  }

  ghost predicate Listed(live: map<ZoneId, Table>, c: Change) {
    c.zoneId in live && exists id :: id in live[c.zoneId] && live[c.zoneId][id].pattern == c.pattern
  }

  ghost predicate ListedOnlyAs(live: map<ZoneId, Table>, c: Change, id: RouteId) {
    c.zoneId in live ==> forall x :: x in live[c.zoneId] && live[c.zoneId][x].pattern == c.pattern ==> x == id
  }

  ghost predicate BoundOk(w: World, s: State)
    requires Bound(s)
  {
    && CreatedOk(w, s)
    && WellBound(s.plan.value, s.baseline.value)
    && (forall id :: BaseId(s, id) ==> id.n < w.issued)
    && IntentsOk(s)
    && LiveOk(s, w.live)
    && NetworkOk(w, s)
    && (s.status == Armed ==> ArmedOk(w, s))
    && LetGo(s, w.live)
    && FencedOk(w, s)
  }

  /** The first clean round came after every forward write of the lease was sent, and a released lease
      has outlasted its fence since then. */
  ghost predicate FencedOk(w: World, s: State)
    requires Bound(s)
  {
    && (s.restoredAt.Some? ==> InRound(s) || s.status == Released)
    && (s.restoredAt.Some? ==> s.restoredAt.value <= w.clock && SentBy(w, s, s.restoredAt.value))
    && (s.status == Released ==> s.restoredAt.Some? && s.restoredAt.value + FENCE_MS <= w.clock)
  }

  predicate InRound(s: State) { s.status == Restoring || s.status == Restored || s.status == ReconciliationRequired }

  ghost predicate SentBy(w: World, s: State, at: int) {
    forall k :: 0 <= k < |s.intents| && KeyOf(s, s.intents[k].change) in w.sent ==> w.sent[KeyOf(s, s.intents[k].change)] <= at
  }

  /** Nothing of the lease may be in the network. */
  predicate Quiet(s: State) { s.status == Reserved || s.status == Accepted || !Bound(s) }

  ghost predicate LeaseOk(w: World, s: State) {
    && ScopeOk(s.scope)
    && (s.plan.Some? <==> s.baseline.Some?)
    && (!Bound(s) ==> s.intents == [] && (s.status == Reserved || s.status == Released))
    && (s.status == Reserved ==> !Bound(s) && s.intents == [] && s.restoredAt.None?)
    && (Quiet(s) ==> w.flying == multiset{})
    && (s.status == Reserved || s.status == Armed ==> s.scope.operationId !in w.history)
    && (Bound(s) ==> BoundOk(w, s))
  }

  /** A forward write that was ever sent belongs to an archived lease or to a saved intent. */
  ghost predicate SentOk(w: World, key: Key) {
    || key.op in w.history
    || (w.active.Some? && exists k :: 0 <= k < |w.active.value.intents| && key == KeyOf(w.active.value, w.active.value.intents[k].change))
  }

  /** Nothing was sent in the future, and nothing in the network has outlived its time. */
  ghost predicate TimesOk(w: World) {
    && (forall f :: f in w.flying ==> f.at <= w.clock < f.at + LIFETIME_MS)
    && (forall key :: key in w.sent ==> w.sent[key] <= w.clock)
    && (w.lastUndo.Some? ==> w.lastUndo.value <= w.clock)
  }

  ghost predicate Inv(w: World) {
    && LiveSane(w) && TimesOk(w)
    && (forall key :: key in w.sent ==> SentOk(w, key))
    && (w.active.None? ==> w.flying == multiset{})
    && (w.active.Some? ==> LeaseOk(w, w.active.value))
  }

  lemma InitInv(w: World)
    requires Init(w)
    ensures Inv(w)
  {
  }

  /** Same plan and baseline, no intent dropped or redirected. */
  ghost predicate Extends(s: State, t: State) {
    && Bound(s) && Bound(t)
    && s.plan == t.plan && s.baseline == t.baseline && |s.intents| <= |t.intents|
    && forall k :: 0 <= k < |s.intents| ==> t.intents[k].change == s.intents[k].change && t.intents[k].before == s.intents[k].before
  }

  lemma ExtendsKeepsZones(s: State, t: State, live: map<ZoneId, Table>)
    requires Extends(s, t) && LiveOk(s, live)
    ensures LiveOk(t, live)
  {
    forall a | 0 <= a < |s.baseline.value| ensures ZoneOk(t, t.baseline.value[a], live[t.baseline.value[a].id]) {
      ExtendsKeepsZone(s, t, s.baseline.value[a], live[s.baseline.value[a].id]);
    }
  }

  lemma ExtendsKeepsZone(s: State, t: State, zone: Zone, table: Table)
    requires Extends(s, t) && ZoneOk(s, zone, table)
    ensures ZoneOk(t, zone, table)
  {
    var base := TableOf(zone.routes);
    forall id | id in base ensures table[id] == base[id] || Replaced(t, zone.id, id, table[id]) {
      if table[id] != base[id] {
        var k :| Replaces(s, k, zone.id, id) && table[id] == WorkerRow(s, k);
        assert Replaces(t, k, zone.id, id) && table[id] == WorkerRow(t, k);
      }
    }
    forall id | id in table && id !in base ensures Added(t, zone.id, table[id]) && !BaseId(t, id) {
      SameBaseIds(s, t, id);
      var k :| Creates(s, k, zone.id) && table[id] == WorkerRow(s, k);
      assert Creates(t, k, zone.id) && table[id] == WorkerRow(t, k);
    }
  }

  lemma ExtendsKeepsForward(w: World, v: World, s: State, t: State, f: Flight)
    requires Extends(s, t) && t.scope == s.scope && v.sent == w.sent && CarriesForward(w, s, f)
    ensures CarriesForward(v, t, f)
  {
    var k :| Carries(w, s, f, k);
    assert Forward(t, k) == Forward(s, k) && KeyOf(t, t.intents[k].change) == KeyOf(s, s.intents[k].change);
    assert Carries(v, t, f, k);
  }

  lemma ExtendsKeepsUndo(s: State, t: State, req: Request)
    requires Extends(s, t) && UndoShaped(s, req)
    ensures UndoShaped(t, req)
  {
    if req.Put? {
      var k :| Replaces(s, k, req.zone, req.id) && req.row == s.intents[k].before.value.ToRow();
      assert Replaces(t, k, req.zone, req.id);
    } else {
      SameBaseIds(s, t, req.id);
    }
  }

  lemma ExtendsKeepsFlight(w: World, v: World, s: State, t: State, f: Flight)
    requires Extends(s, t) && t.scope == s.scope && v.sent == w.sent && v.lastUndo == w.lastUndo
    requires CarriesForward(w, s, f) || CarriesUndo(w, s, f)
    ensures CarriesForward(v, t, f) || CarriesUndo(v, t, f)
  {
    if CarriesForward(w, s, f) { ExtendsKeepsForward(w, v, s, t, f); } else { ExtendsKeepsUndo(s, t, f.req); }
  }

  /** What is in the network is a request the zones can take. */
  lemma FlightIsOk(w: World, s: State, f: Flight)
    requires Bound(s) && (CarriesForward(w, s, f) || CarriesUndo(w, s, f))
    ensures RequestOk(s, f.req)
  {
    if CarriesForward(w, s, f) {
      var k :| Carries(w, s, f, k);
      ForwardIsOk(s, k);
    }
  }

  /** Everything the rest of a lease's life rests on survives an edit that only extends it. */
  lemma ExtendsKeepsBound(w: World, v: World, s: State, t: State)
    requires Extends(s, t) && BoundOk(w, s) && IntentsOk(t)
    requires v.live == w.live && v.issued == w.issued && v.flying == w.flying && v.sent == w.sent && v.lastUndo == w.lastUndo
    requires t.scope == s.scope && CreatedOk(v, t) && FencedOk(v, t)
    requires t.status == Armed ==> ArmedOk(v, t)
    requires LetGo(t, v.live)
    ensures BoundOk(v, t)
  {
    ExtendsKeepsZones(s, t, w.live);
    forall f | f in v.flying ensures CarriesForward(v, t, f) || CarriesUndo(v, t, f) {
      ExtendsKeepsFlight(w, v, s, t, f);
    }
    forall id | BaseId(t, id) ensures id.n < v.issued {
      assert BaseId(s, id);
    }
  }

  // ------------------------------------------------------------------ requests arriving

  lemma LandKeepsZone(s: State, zone: Zone, t: Table, req: Request, issued: RouteId)
    requires Bound(s) && WellBound(s.plan.value, s.baseline.value) && IntentsOk(s)
    requires zone in s.baseline.value && ZoneOk(s, zone, t) && RequestOk(s, req) && req.zone == zone.id
    requires !BaseId(s, issued)
    ensures ZoneOk(s, zone, Landed(map[zone.id := t], req, issued)[zone.id])
  {
    var u := Landed(map[zone.id := t], req, issued)[zone.id];
    match req
    case Put(z, id, row) =>
      var k :| Replaces(s, k, z, id) && (row == WorkerRow(s, k) || row == s.intents[k].before.value.ToRow());
      ReplacedRow(s, zone, k);
      assert row != TableOf(zone.routes)[id] ==> Replaced(s, zone.id, id, row);
      assert u == t || u == t[id := row];
      if u != t { UpdateKeepsZone(s, zone, t, id, row); }
    case Post(z, row) =>
      BaseIdOfZone(s, zone, issued);
      assert u == t || u == t[issued := row];
      if u != t { UpdateKeepsZone(s, zone, t, issued, row); }
    case Delete(z, id) =>
      BaseIdOfZone(s, zone, id);
      assert u == t - {id};
  }

  lemma BaseIdOfZone(s: State, zone: Zone, id: RouteId)
    requires Bound(s) && zone in s.baseline.value && !BaseId(s, id)
    ensures id !in TableOf(zone.routes)
  {
    var a :| 0 <= a < |s.baseline.value| && s.baseline.value[a] == zone;
  }

  /** Writing one admissible row under one id. */
  lemma UpdateKeepsZone(s: State, zone: Zone, t: Table, id: RouteId, row: Row)
    requires Bound(s) && ZoneOk(s, zone, t)
    requires forall other :: other in t && other != id ==> t[other].pattern != row.pattern
    requires id in TableOf(zone.routes) ==> row == TableOf(zone.routes)[id] || Replaced(s, zone.id, id, row)
    requires id !in TableOf(zone.routes) ==> Added(s, zone.id, row) && !BaseId(s, id)
    ensures ZoneOk(s, zone, t[id := row])
  {
  }

  /** The route an intent replaces is that zone's baseline row under its own id. */
  lemma ReplacedRow(s: State, zone: Zone, k: nat)
    requires Bound(s) && WellBound(s.plan.value, s.baseline.value) && IntentsOk(s)
    requires zone in s.baseline.value && k < |s.intents|
    requires s.intents[k].change.zoneId == zone.id
    ensures FindZone(s.baseline.value, zone.id) == Some(zone)
    ensures s.intents[k].before.Some? ==>
              var b := s.intents[k].before.value;
              && b in zone.routes && b.pattern == s.intents[k].change.pattern
              && b.id in TableOf(zone.routes) && TableOf(zone.routes)[b.id] == b.ToRow()
    ensures s.intents[k].before.None? ==> forall r :: r in zone.routes ==> r.pattern != s.intents[k].change.pattern
  {
    var i := s.intents[k];
    ZoneFound(s.baseline.value, zone);
    var a :| 0 <= a < |s.baseline.value| && s.baseline.value[a] == zone;
    TableHolds(zone.routes);
    if i.change.baselineRouteId.Some? {
      FindRouteHits(zone.routes, i.change.baselineRouteId.value);
      assert IntentOk(s, k);
      var c :| 0 <= c < |s.plan.value.routes| && s.plan.value.routes[c] == i.change;
      assert GroundedChange(i.change, s.baseline.value);
      var r :| r in zone.routes && r.id == i.change.baselineRouteId.value && r.pattern == i.change.pattern;
      SameIdSameRow(zone.routes, r, i.before.value);
    } else {
      assert IntentOk(s, k);
      var c :| 0 <= c < |s.plan.value.routes| && s.plan.value.routes[c] == i.change;
      assert GroundedChange(i.change, s.baseline.value);
    }
  }

  lemma ZoneFound(zones: seq<Zone>, zone: Zone)
    requires zone in zones
    requires forall a, b :: 0 <= a < b < |zones| ==> zones[a].id != zones[b].id
    ensures FindZone(zones, zone.id) == Some(zone)
  {
    FindZoneHits(zones, zone.id);
  }

  lemma SameIdSameRow(rows: seq<Route>, a: Route, b: Route)
    requires Distinct(rows) && a in rows && b in rows && a.id == b.id
    ensures a == b
  {
  }

  /** A request only reaches the zone it names. */
  lemma LandedLocally(live: map<ZoneId, Table>, req: Request, issued: RouteId, z: ZoneId)
    requires z in live
    ensures z in Landed(live, req, issued)
    ensures Landed(live, req, issued)[z] == if z == req.zone then Landed(map[z := live[z]], req, issued)[z] else live[z]
  {
  }

  lemma LandKeepsLive(w: World, s: State, req: Request, issued: RouteId)
    requires Bound(s) && WellBound(s.plan.value, s.baseline.value) && IntentsOk(s) && LiveOk(s, w.live)
    requires RequestOk(s, req) && !BaseId(s, issued)
    ensures LiveOk(s, Landed(w.live, req, issued))
  {
    forall a | 0 <= a < |s.baseline.value|
      ensures s.baseline.value[a].id in Landed(w.live, req, issued)
      ensures ZoneOk(s, s.baseline.value[a], Landed(w.live, req, issued)[s.baseline.value[a].id])
    {
      LandKeepsOneZone(w, s, req, issued, a);
    }
  }

  lemma LandKeepsOneZone(w: World, s: State, req: Request, issued: RouteId, a: nat)
    requires Bound(s) && WellBound(s.plan.value, s.baseline.value) && IntentsOk(s) && LiveOk(s, w.live)
    requires RequestOk(s, req) && !BaseId(s, issued) && a < |s.baseline.value|
    ensures s.baseline.value[a].id in Landed(w.live, req, issued)
    ensures ZoneOk(s, s.baseline.value[a], Landed(w.live, req, issued)[s.baseline.value[a].id])
  {
    var zone := s.baseline.value[a];
    assert zone.id in w.live && ZoneOk(s, zone, w.live[zone.id]);
    LandedLocally(w.live, req, issued, zone.id);
    if req.zone == zone.id {
      LandKeepsZone(s, zone, w.live[zone.id], req, issued);
    }
  }

  lemma LandKeepsSane(w: World, req: Request, issued: RouteId)
    requires LiveSane(w) && issued == RouteId(w.issued)
    ensures LiveSane(w.(live := Landed(w.live, req, issued), issued := w.issued + 1))
  {
    var live := Landed(w.live, req, issued);
    forall z | z in live ensures UniquePatterns(live[z]) && forall id: RouteId :: id in live[z] ==> id.n < w.issued + 1 {
      if live[z] != w.live[z] {
        assert z == req.zone;
      }
    }
  }

  /** A zone named by a planned change is one of the baseline's. */
  lemma ZoneOfIntent(s: State, k: nat) returns (zone: Zone)
    requires Bound(s) && WellBound(s.plan.value, s.baseline.value) && IntentsOk(s) && k < |s.intents|
    ensures zone in s.baseline.value && zone.id == s.intents[k].change.zoneId
  {
    assert IntentOk(s, k);
    var c :| 0 <= c < |s.plan.value.routes| && s.plan.value.routes[c] == s.intents[k].change;
    assert GroundedChange(s.intents[k].change, s.baseline.value);
    FindZoneHits(s.baseline.value, s.intents[k].change.zoneId);
    zone := FindZone(s.baseline.value, s.intents[k].change.zoneId).value;
  }

  /** Two intents never replace the same baseline route. */
  lemma BeforeInjective(s: State, k: nat, m: nat)
    requires Bound(s) && WellBound(s.plan.value, s.baseline.value) && IntentsOk(s)
    requires k < |s.intents| && m < |s.intents| && k != m
    requires s.intents[k].change.zoneId == s.intents[m].change.zoneId
    requires s.intents[k].before.Some? && s.intents[m].before.Some?
    ensures s.intents[k].before.value.id != s.intents[m].before.value.id
  {
    var zone := ZoneOfIntent(s, k);
    ReplacedRow(s, zone, k);
    ReplacedRow(s, zone, m);
    DifferentKeys(s, k, m);
    PatternsTellIds(zone.routes, s.intents[k].before.value, s.intents[m].before.value);
  }

  lemma DifferentKeys(s: State, k: nat, m: nat)
    requires Bound(s) && IntentsOk(s) && k < |s.intents| && m < |s.intents| && k != m
    ensures !SameKey(s.intents[k].change, s.intents[m].change)
  {
    if m < k {
      assert !SameKey(s.intents[m].change, s.intents[k].change);
    }
  }

  lemma PatternsTellIds(rows: seq<Route>, a: Route, b: Route)
    requires Distinct(rows) && a in rows && b in rows && a.pattern != b.pattern
    ensures a.id != b.id
  {
  }

  lemma BeforeIsBaseId(s: State, k: nat)
    requires Bound(s) && WellBound(s.plan.value, s.baseline.value) && IntentsOk(s)
    requires k < |s.intents| && s.intents[k].before.Some?
    ensures BaseId(s, s.intents[k].before.value.id)
  {
    var zone := ZoneOfIntent(s, k);
    ReplacedRow(s, zone, k);
    var a :| 0 <= a < |s.baseline.value| && s.baseline.value[a] == zone;
  }

  /** An applied row stays put when some other intent's forward write arrives. */
  lemma OtherForwardSparesRow(w: World, s: State, k: nat, id: RouteId, m: nat, issued: RouteId)
    requires Bound(s) && WellBound(s.plan.value, s.baseline.value) && IntentsOk(s) && LiveSane(w)
    requires k < |s.intents| && m < |s.intents| && k != m
    requires RowApplied(s, w.live, k, id) && issued == RouteId(w.issued)
    ensures RowApplied(s, Landed(w.live, Forward(s, m), issued), k, id)
  {
    var z := s.intents[k].change.zoneId;
    LandedLocally(w.live, Forward(s, m), issued, z);
    if s.intents[m].change.zoneId == z && s.intents[m].before.Some? {
      BeforeIsBaseId(s, m);
      if s.intents[k].before.Some? { BeforeInjective(s, k, m); }
    }
  }

  lemma LandKeepsCreated(w: World, v: World, s: State, f: Flight)
    requires Bound(s) && WellBound(s.plan.value, s.baseline.value) && IntentsOk(s) && CreatedOk(w, s)
    requires CarriesForward(w, s, f) || CarriesUndo(w, s, f)
    requires f in w.flying && v.flying == w.flying - multiset{f} && v.sent == w.sent
    requires v.live == Landed(w.live, f.req, RouteId(w.issued))
    ensures CreatedOk(v, s)
  {
    FlightIsOk(w, s, f);
    forall k | 0 <= k < |s.intents| && s.intents[k].before.None? ensures CreationOk(v, s, k) {
      assert CreationOk(w, s, k);
      if Carries(w, s, f, k) {
        assert Copies(v, s, k) == 0;
      } else {
        NotThisForward(w, s, f, k);
        OtherRequestAddsNoPattern(w, s, f.req, RouteId(w.issued), k);
        CreationSpared(w, v, s, f, k);
      }
    }
  }

  /** A flight that does not carry intent k forward is another request altogether. */
  lemma NotThisForward(w: World, s: State, f: Flight, k: nat)
    requires Bound(s) && IntentsOk(s) && k < |s.intents| && s.intents[k].before.None? && !Carries(w, s, f, k)
    requires CarriesForward(w, s, f) || CarriesUndo(w, s, f)
    ensures f.req != Forward(s, k)
  {
    if CarriesForward(w, s, f) {
      var m :| Carries(w, s, f, m);
      OthersForwardDiffer(s, k, m);
    }
  }

  lemma CreationSpared(w: World, v: World, s: State, f: Flight, k: nat)
    requires Bound(s) && k < |s.intents| && CreationOk(w, s, k) && !Carries(w, s, f, k)
    requires v.flying == w.flying - multiset{f} && v.sent == w.sent
    requires Listed(v.live, s.intents[k].change) ==> Listed(w.live, s.intents[k].change)
    requires forall id :: ListedOnlyAs(w.live, s.intents[k].change, id) ==> ListedOnlyAs(v.live, s.intents[k].change, id)
    ensures CreationOk(v, s, k)
  {
    assert Copies(v, s, k) == Copies(w, s, k);
  }

  /** Only the creating request of an added pattern can make it appear. */
  lemma OtherRequestAddsNoPattern(w: World, s: State, req: Request, issued: RouteId, k: nat)
    requires Bound(s) && WellBound(s.plan.value, s.baseline.value) && IntentsOk(s)
    requires RequestOk(s, req) && k < |s.intents| && s.intents[k].before.None? && req != Forward(s, k)
    ensures var live := Landed(w.live, req, issued);
            var c := s.intents[k].change;
            && (Listed(live, c) ==> Listed(w.live, c))
            && forall id :: ListedOnlyAs(w.live, c, id) ==> ListedOnlyAs(live, c, id)
  {
    var c := s.intents[k].change;
    if c.zoneId in w.live {
      LandedLocally(w.live, req, issued, c.zoneId);
    }
    if req.zone == c.zoneId && !req.Delete? {
      assert req.row.pattern != c.pattern by {
        RequestPatternDiffers(s, req, k);
      }
    }
  }

  lemma RequestPatternDiffers(s: State, req: Request, k: nat)
    requires Bound(s) && WellBound(s.plan.value, s.baseline.value) && IntentsOk(s)
    requires RequestOk(s, req) && k < |s.intents| && s.intents[k].before.None? && req != Forward(s, k)
    requires !req.Delete? && req.zone == s.intents[k].change.zoneId
    ensures req.row.pattern != s.intents[k].change.pattern
  {
    var zone := ZoneOfIntent(s, k);
    ReplacedRow(s, zone, k);
    match req
    case Put(z, id, row) =>
      var m :| Replaces(s, m, z, id) && (row == WorkerRow(s, m) || row == s.intents[m].before.value.ToRow());
      ReplacedRow(s, zone, m);
    case Post(z, row) =>
      var m :| Creates(s, m, z) && row == WorkerRow(s, m);
      if m != k { DifferentKeys(s, k, m); }
  }

  lemma LandKeepsArmed(w: World, v: World, s: State, f: Flight)
    requires Bound(s) && WellBound(s.plan.value, s.baseline.value) && IntentsOk(s) && ArmedOk(w, s) && LiveSane(w)
    requires f in w.flying && v.flying == w.flying - multiset{f} && v.sent == w.sent
    requires v.live == Landed(w.live, f.req, RouteId(w.issued))
    ensures ArmedOk(v, s)
  {
    LandKeepsAcked(w, v, s, f);
    LeavingKeepsFlying(w, v, s, f);
  }

  lemma LandKeepsAcked(w: World, v: World, s: State, f: Flight)
    requires Bound(s) && WellBound(s.plan.value, s.baseline.value) && IntentsOk(s) && AckedShown(s, w.live) && LiveSane(w)
    requires Unacked(w, s, f) && v.live == Landed(w.live, f.req, RouteId(w.issued))
    ensures AckedShown(s, v.live)
  {
    var m :| Carries(w, s, f, m) && s.intents[m].id.None?;
    forall k | 0 <= k < |s.intents| && s.intents[k].id.Some? ensures RowApplied(s, v.live, k, s.intents[k].id.value) {
      OtherForwardSparesRow(w, s, k, s.intents[k].id.value, m, RouteId(w.issued));
    }
  }

  /** A request that leaves the network keeps the accounting of the armed phase. */
  lemma LeavingKeepsFlying(w: World, v: World, s: State, f: Flight)
    requires Bound(s) && FlightOk(w, s) && v.flying == w.flying - multiset{f} && v.sent == w.sent
    ensures FlightOk(v, s)
  {
    forall g | g in v.flying ensures Unacked(v, s, g) {
      assert g in w.flying;
      var k :| Carries(w, s, g, k) && s.intents[k].id.None?;
      assert Carries(v, s, g, k);
    }
    assert forall k :: 0 <= k < |s.intents| ==> Copies(v, s, k) <= Copies(w, s, k);
  }

  /** Fewer requests in the network and sane tables: the bound part of the lease still stands. */
  lemma SubsetKeepsBound(w: World, v: World, s: State)
    requires Bound(s) && BoundOk(w, s) && !Quiet(s)
    requires forall f :: f in v.flying ==> f in w.flying
    requires v.sent == w.sent && v.lastUndo == w.lastUndo && v.clock == w.clock
    requires w.issued <= v.issued && LiveOk(s, v.live) && CreatedOk(v, s) && LetGo(s, v.live)
    requires s.status == Armed ==> ArmedOk(v, s)
    ensures BoundOk(v, s)
  {
    forall f | f in v.flying ensures CarriesForward(v, s, f) || CarriesUndo(v, s, f) {
      if CarriesForward(w, s, f) {
        var k :| Carries(w, s, f, k);
        assert Carries(v, s, f, k);
      }
    }
  }

  /** The invariant of the whole world from that of the lease, when nothing new was sent. */
  lemma LeaseKeepsInv(w: World, v: World, s: State, t: State)
    requires Inv(w) && w.active == Some(s) && v.active == Some(t) && v.sent == w.sent && v.history == w.history
    requires t.scope == s.scope && |s.intents| <= |t.intents|
    requires forall k :: 0 <= k < |s.intents| ==> t.intents[k].change == s.intents[k].change
    requires LiveSane(v) && TimesOk(v) && LeaseOk(v, t)
    ensures Inv(v)
  {
    SentSurvives(w, v, s, t);
  }

  /** Once a released lease has outlasted its fence, nothing of it flies forward: what is left in the
      network only undoes, and finds nothing to undo. */
  lemma NoForwardLeft(w: World, s: State, f: Flight)
    requires TimesOk(w) && Bound(s) && FencedOk(w, s) && f in w.flying
    requires s.restoredAt.Some? && s.restoredAt.value + FENCE_MS <= w.clock
    ensures f.at > s.restoredAt.value && !CarriesForward(w, s, f)
  {
    forall k ensures !Carries(w, s, f, k) {
    }
  }

  /** An undoing write changes nothing of a zone that is back on its baseline. */
  lemma UndoFindsNothing(s: State, live: map<ZoneId, Table>, req: Request, issued: RouteId, a: nat)
    requires Bound(s) && WellBound(s.plan.value, s.baseline.value) && IntentsOk(s) && UndoShaped(s, req) && a < |s.baseline.value|
    requires s.baseline.value[a].id in live && live[s.baseline.value[a].id] == TableOf(s.baseline.value[a].routes)
    ensures s.baseline.value[a].id in Landed(live, req, issued)
    ensures Landed(live, req, issued)[s.baseline.value[a].id] == live[s.baseline.value[a].id]
  {
    var zone := s.baseline.value[a];
    LandedLocally(live, req, issued, zone.id);
    if req.zone == zone.id {
      if req.Put? {
        var k :| Replaces(s, k, zone.id, req.id) && req.row == s.intents[k].before.value.ToRow();
        ReplacedRow(s, zone, k);
        assert live[zone.id][req.id := req.row] == live[zone.id];
      } else {
        BaseIdOfZone(s, zone, req.id);
        assert live[zone.id] - {req.id} == live[zone.id];
      }
    }
  }

  lemma LandKeepsReleased(w: World, s: State, f: Flight)
    requires TimesOk(w) && Bound(s) && BoundOk(w, s) && f in w.flying && s.status == Released
    ensures ShowsBaseline(s.baseline.value, Landed(w.live, f.req, RouteId(w.issued)))
  {
    NoForwardLeft(w, s, f);
    forall a | 0 <= a < |s.baseline.value|
      ensures var live := Landed(w.live, f.req, RouteId(w.issued));
              s.baseline.value[a].id in live && live[s.baseline.value[a].id] == TableOf(s.baseline.value[a].routes)
    {
      UndoFindsNothing(s, w.live, f.req, RouteId(w.issued), a);
    }
  }

  lemma LandKeepsInv(w: World, f: Flight)
    requires Inv(w) && Enabled(w, Land(f))
    ensures Inv(Next(w, Land(f)))
  {
    var v := Next(w, Land(f));
    var s := FlyingLease(w, f);
    FlightIsOk(w, s, f);
    LandKeepsSane(w, f.req, RouteId(w.issued));
    LandKeepsLive(w, s, f.req, RouteId(w.issued));
    LandKeepsCreated(w, v, s, f);
    if s.status == Armed { LandKeepsArmed(w, v, s, f); }
    if s.status == Released { LandKeepsReleased(w, s, f); }
    LeavingKeepsTimes(w, v, f);
    SubsetKeepsBound(w, v, s);
    LeaseKeepsInv(w, v, s, s);
  }

  lemma LeavingKeepsTimes(w: World, v: World, f: Flight)
    requires TimesOk(w) && v.flying == w.flying - multiset{f} && v.clock == w.clock && v.sent == w.sent && v.lastUndo == w.lastUndo
    ensures TimesOk(v) && forall g :: g in v.flying ==> g in w.flying
  {
    assert forall g :: g in v.flying ==> g in w.flying;
  }

  /** Something flies only while a bound lease is armed, restoring, restored or released. */
  lemma FlyingLease(w: World, f: Flight) returns (s: State)
    requires Inv(w) && f in w.flying
    ensures w.active == Some(s) && Bound(s) && BoundOk(w, s) && !Quiet(s)
    ensures CarriesForward(w, s, f) || CarriesUndo(w, s, f)
  {
    s := w.active.value;
  }

  lemma FewerKeepCreated(w: World, v: World, s: State)
    requires Bound(s) && CreatedOk(w, s) && v.sent == w.sent && v.live == w.live && forall f :: v.flying[f] <= w.flying[f]
    ensures CreatedOk(v, s)
  {
    forall k | 0 <= k < |s.intents| && s.intents[k].before.None? ensures CreationOk(v, s, k) {
      assert CreationOk(w, s, k);
      assert Copies(v, s, k) <= Copies(w, s, k);
    }
  }

  lemma VanishKeepsInv(w: World, f: Flight)
    requires Inv(w) && Enabled(w, Vanish(f))
    ensures Inv(Next(w, Vanish(f)))
  {
    var v := Next(w, Vanish(f));
    var s := FlyingLease(w, f);
    FewerKeepCreated(w, v, s);
    if s.status == Armed { LeavingKeepsFlying(w, v, s, f); }
    LeavingKeepsTimes(w, v, f);
    SubsetKeepsBound(w, v, s);
    LeaseKeepsInv(w, v, s, s);
  }

  lemma TickKeepsInv(w: World, to: int)
    requires Inv(w) && Enabled(w, Tick(to))
    ensures Inv(Next(w, Tick(to)))
  {
    var v := Next(w, Tick(to));
    if w.active.Some? && Bound(w.active.value) {
      var s := w.active.value;
      assert BoundOk(w, s);
      TickKeepsBound(w, v, s);
    }
    forall key | key in v.sent ensures SentOk(v, key) { assert SentOk(w, key); }
  }

  lemma TickKeepsBound(w: World, v: World, s: State)
    requires Bound(s) && BoundOk(w, s) && v == w.(clock := v.clock) && w.clock <= v.clock
    ensures BoundOk(v, s)
  {
    forall f | f in v.flying ensures CarriesForward(v, s, f) || CarriesUndo(v, s, f) {
      if CarriesForward(w, s, f) {
        var k :| Carries(w, s, f, k);
        assert Carries(v, s, f, k);
      }
    }
    forall k | 0 <= k < |s.intents| && s.intents[k].before.None? ensures CreationOk(v, s, k) { assert CreationOk(w, s, k); }
    if s.status == Armed { SameFlightOk(w, v, s); }
  }

  lemma SameFlightOk(w: World, v: World, s: State)
    requires Bound(s) && FlightOk(w, s) && v.flying == w.flying && v.sent == w.sent
    ensures FlightOk(v, s)
  {
    forall f | f in v.flying ensures Unacked(v, s, f) {
      var k :| Carries(w, s, f, k) && s.intents[k].id.None?;
      assert Carries(v, s, f, k);
    }
    assert forall k :: 0 <= k < |s.intents| ==> Copies(v, s, k) == Copies(w, s, k);
  }

  // ------------------------------------------------------------------ the life of a lease

  /** Once rested, nothing a finished lease sent is left in the network. */
  lemma RestedMeansEmpty(w: World)
    requires Inv(w) && Rested(w) && (w.active.Some? ==> Finished(w.active.value))
    ensures w.flying == multiset{}
  {
    forall f ensures f !in w.flying {
      if f in w.flying {
        var s := FlyingLease(w, f);
        NoForwardLeft(w, s, f);
        assert false;
      }
    }
  }

  lemma BookkeepingKeepsInv(w: World, e: Event)
    requires Inv(w) && Enabled(w, e) && (e.SetAlarm? || e.ClearAlarm? || e.Archive? || e.Reserve? || e.FreeUnbound? || e.ReadBack?)
    requires e.Reserve? ==> Rested(w)
    ensures Inv(Next(w, e))
  {
    var v := Next(w, e);
    if e.Reserve? { RestedMeansEmpty(w); }
    forall key | key in v.sent ensures SentOk(v, key) {
      assert SentOk(w, key);
    }
    if v.active.Some? && Bound(v.active.value) {
      assert BoundOk(w, w.active.value);
      SameWorldBound(w, v, v.active.value);
    }
  }

  /** Alarms, the archive and what a wake has read are nothing to a bound lease. */
  lemma SameWorldBound(w: World, v: World, s: State)
    requires Bound(s) && BoundOk(w, s) && v == w.(alarm := v.alarm, history := v.history, readBack := v.readBack)
    ensures BoundOk(v, s)
  {
    forall f | f in v.flying ensures CarriesForward(v, s, f) || CarriesUndo(v, s, f) {
      ExtendsKeepsFlight(w, v, s, s, f);
    }
    forall k | 0 <= k < |s.intents| && s.intents[k].before.None? ensures CreationOk(v, s, k) { assert CreationOk(w, s, k); }
    if s.status == Armed { SameFlightOk(w, v, s); }
  }

  lemma BindKeepsInv(w: World, plan: Plan, zones: seq<Zone>)
    requires Inv(w) && Enabled(w, Bind(plan, zones))
    ensures Inv(Next(w, Bind(plan, zones)))
  {
    var v := Next(w, Bind(plan, zones));
    var t := v.active.value;
    forall a | 0 <= a < |zones| ensures ZoneOk(t, zones[a], v.live[zones[a].id]) {
      assert v.live[zones[a].id] == TableOf(zones[a].routes);
    }
    forall id | BaseId(t, id) ensures id.n < v.issued {
      var a :| 0 <= a < |zones| && id in TableOf(zones[a].routes);
      assert id in w.live[zones[a].id];
    }
    assert BoundOk(v, t);
    forall key | key in v.sent ensures SentOk(v, key) {
      assert SentOk(w, key);
    }
  }

  lemma SaveIntentKeepsInv(w: World, c: Change)
    requires Inv(w) && Enabled(w, SaveIntent(c))
    ensures Inv(Next(w, SaveIntent(c)))
  {
    var v := Next(w, SaveIntent(c));
    var s, t := w.active.value, v.active.value;
    assert BoundOk(w, s);
    SavedIntentsOk(w, s, c);
    SaveIntentKeepsArmed(w, c);
    SaveIntentKeepsCreated(w, v, s, t, c);
    FenceKept(w, v, s, t);
    ExtendsKeepsBound(w, v, s, t);
    LeaseKeepsInv(w, v, s, t);
  }

  lemma SaveIntentKeepsCreated(w: World, v: World, s: State, t: State, c: Change)
    requires Inv(w) && Enabled(w, SaveIntent(c)) && w.active == Some(s) && v == Next(w, SaveIntent(c)) && v.active == Some(t)
    ensures CreatedOk(v, t)
  {
    assert BoundOk(w, s) && FlightOk(w, s);
    NewIntentNotFlying(w, s, t, c);
    if BeforeOf(s.baseline.value, c).None? { NewPatternNotListed(w, s, t, c); }
    assert t.intents[|s.intents|].id.None?;
    forall k | 0 <= k < |t.intents| && t.intents[k].before.None? ensures CreationOk(v, t, k) {
      if k < |s.intents| { CreationCarried(w, v, s, t, k); }
    }
  }

  lemma CreationCarried(w: World, v: World, s: State, t: State, k: nat)
    requires Bound(s) && Bound(t) && CreatedOk(w, s) && t.plan == s.plan && t.scope == s.scope
    requires k < |s.intents| && k < |t.intents| && t.intents[k] == s.intents[k] && s.intents[k].before.None?
    requires v.flying == w.flying && v.sent == w.sent && v.live == w.live
    ensures CreationOk(v, t, k)
  {
    assert CreationOk(w, s, k) && Forward(t, k) == Forward(s, k);
  }

  /** Before its intent is saved, a pattern the plan adds is nowhere at the provider. */
  lemma NewPatternNotListed(w: World, s: State, t: State, c: Change)
    requires Bound(s) && WellBound(s.plan.value, s.baseline.value) && IntentsOk(s) && LiveOk(s, w.live)
    requires c in s.plan.value.routes && !HasIntent(s, c) && BeforeOf(s.baseline.value, c).None?
    ensures !Listed(w.live, c)
  {
    var i :| 0 <= i < |s.plan.value.routes| && s.plan.value.routes[i] == c;
    assert GroundedChange(c, s.baseline.value);
    FindZoneHits(s.baseline.value, c.zoneId);
    var zone := FindZone(s.baseline.value, c.zoneId).value;
    FindRouteHits(zone.routes, if c.baselineRouteId.Some? then c.baselineRouteId.value else RouteId(0));
    assert c.baselineRouteId.None?;
    var a :| 0 <= a < |s.baseline.value| && s.baseline.value[a] == zone;
    forall id | id in w.live[c.zoneId] ensures w.live[c.zoneId][id].pattern != c.pattern {
      LiveRowPattern(s, zone, w.live[c.zoneId], id, c);
    }
  }

  lemma LiveRowPattern(s: State, zone: Zone, t: Table, id: RouteId, c: Change)
    requires Bound(s) && WellBound(s.plan.value, s.baseline.value) && IntentsOk(s)
    requires zone in s.baseline.value && ZoneOk(s, zone, t) && id in t && c.zoneId == zone.id
    requires !HasIntent(s, c) && forall r :: r in zone.routes ==> r.pattern != c.pattern
    ensures t[id].pattern != c.pattern
  {
    var base := TableOf(zone.routes);
    if id in base {
      if t[id] == base[id] {
        var a :| 0 <= a < |s.baseline.value| && s.baseline.value[a] == zone;
        TableHolds(zone.routes);
        var m :| 0 <= m < |zone.routes| && zone.routes[m].id == id;
        assert zone.routes[m] in zone.routes;
      } else {
        var k :| Replaces(s, k, zone.id, id) && t[id] == WorkerRow(s, k);
        assert !SameKey(s.intents[k].change, c);
      }
    } else {
      var k :| Creates(s, k, zone.id) && t[id] == WorkerRow(s, k);
      assert !SameKey(s.intents[k].change, c);
    }
  }

  lemma SavedIntentsOk(w: World, s: State, c: Change)
    requires Enabled(w, SaveIntent(c)) && w.active == Some(s) && IntentsOk(s)
    ensures var t := Next(w, SaveIntent(c)).active.value; IntentsOk(t) && Extends(s, t)
  {
    var t := Next(w, SaveIntent(c)).active.value;
    var n := |s.intents|;
    forall k | 0 <= k < |t.intents| ensures IntentOk(t, k) {
      if k < n { assert IntentOk(s, k) && t.intents[k] == s.intents[k]; }
    }
  }

  lemma SaveIntentKeepsArmed(w: World, c: Change)
    requires Inv(w) && Enabled(w, SaveIntent(c))
    ensures ArmedOk(Next(w, SaveIntent(c)), Next(w, SaveIntent(c)).active.value)
  {
    var v := Next(w, SaveIntent(c));
    var s, t := w.active.value, v.active.value;
    assert BoundOk(w, s) && ArmedOk(w, s);
    NewIntentNotFlying(w, s, t, c);
    OldIntentsStayArmed(w, v, s, t);
  }

  lemma NewIntentNotFlying(w: World, s: State, t: State, c: Change)
    requires Bound(s) && Bound(t) && FlightOk(w, s) && !HasIntent(s, c) && t.plan == s.plan
    requires |t.intents| == |s.intents| + 1 && t.intents[|s.intents|].change == c
    ensures Copies(w, t, |s.intents|) == 0
  {
    forall f | f in w.flying ensures f.req != Forward(t, |s.intents|) {
      assert Unacked(w, s, f);
      var k :| Carries(w, s, f, k) && s.intents[k].id.None?;
      assert !SameKey(s.intents[k].change, c);
    }
  }

  /** Appending an intent whose write is not in the network keeps the armed accounting. */
  lemma OldIntentsStayArmed(w: World, v: World, s: State, t: State)
    requires Bound(s) && Bound(t) && ArmedOk(w, s) && t.plan == s.plan && t.baseline == s.baseline && t.scope == s.scope
    requires |t.intents| == |s.intents| + 1 && t.intents[..|s.intents|] == s.intents && t.intents[|s.intents|].id.None?
    requires Copies(w, t, |s.intents|) == 0
    requires v.flying == w.flying && v.sent == w.sent && v.live == w.live
    ensures ArmedOk(v, t)
  {
    forall k | 0 <= k < |s.intents| ensures t.intents[k] == s.intents[k] {
      assert t.intents[..|s.intents|][k] == s.intents[k];
    }
    OldFlightStays(w, v, s, t);
    forall k | 0 <= k < |t.intents| && t.intents[k].id.Some? ensures RowApplied(t, v.live, k, t.intents[k].id.value) {
      assert RowApplied(s, w.live, k, s.intents[k].id.value);
      SameBaseIds(s, t, t.intents[k].id.value);
    }
  }

  lemma SameBaseIds(s: State, t: State, id: RouteId)
    requires Bound(s) && Bound(t) && t.baseline == s.baseline
    ensures BaseId(t, id) <==> BaseId(s, id)
  {
  }

  lemma OldFlightStays(w: World, v: World, s: State, t: State)
    requires Bound(s) && Bound(t) && FlightOk(w, s) && t.plan == s.plan && t.scope == s.scope
    requires |t.intents| == |s.intents| + 1 && (forall k :: 0 <= k < |s.intents| ==> t.intents[k] == s.intents[k])
    requires Copies(w, t, |s.intents|) == 0
    requires v.flying == w.flying && v.sent == w.sent
    ensures FlightOk(v, t)
  {
    forall k | 0 <= k < |t.intents| ensures Copies(v, t, k) <= 1 {
      if k < |s.intents| { assert Copies(v, t, k) == Copies(w, s, k); }
    }
    forall f | f in v.flying ensures Unacked(v, t, f) {
      UnackedCarried(w, v, s, t, f);
    }
  }

  lemma UnackedCarried(w: World, v: World, s: State, t: State, f: Flight)
    requires Bound(s) && Bound(t) && Unacked(w, s, f) && t.plan == s.plan && t.scope == s.scope && |s.intents| <= |t.intents|
    requires forall k: nat :: k < |s.intents| && Carries(w, s, f, k) ==> t.intents[k] == s.intents[k]
    requires v.sent == w.sent
    ensures Unacked(v, t, f)
  {
    var k :| Carries(w, s, f, k) && s.intents[k].id.None?;
    assert t.intents[k] == s.intents[k];
    assert Carries(v, t, f, k);
  }

  lemma SendForwardKeepsInv(w: World)
    requires Inv(w) && Enabled(w, SendForward)
    ensures Inv(Next(w, SendForward))
  {
    OneForwardKeepsInv(w, Next(w, SendForward), w.active.value, |w.active.value.intents| - 1);
  }

  lemma OneForwardKeepsInv(w: World, v: World, s: State, n: nat)
    requires Inv(w) && w.active == Some(s) && Bound(s) && s.status == Armed && n < |s.intents| && SendsOnly(w, v, s, n)
    ensures Inv(v)
  {
    assert BoundOk(w, s) && FlightOk(w, s) && s.restoredAt.None?;
    SendKeepsNetwork(w, v, s, n);
    SendKeepsCreated(w, v, s, n);
    SendingKeepsBound(w, v, s);
    SendKeepsRest(w, v, s, n);
  }

  /** A world that differs only in what was sent, and whose network and creations are in order. */
  lemma SendingKeepsBound(w: World, v: World, s: State)
    requires Bound(s) && BoundOk(w, s) && v == w.(sent := v.sent, flying := v.flying, lastUndo := v.lastUndo)
    requires NetworkOk(v, s) && CreatedOk(v, s) && (s.status == Armed ==> FlightOk(v, s))
    requires s.restoredAt.Some? ==> v.sent == w.sent
    ensures BoundOk(v, s)
  {
  }

  lemma SendKeepsNetwork(w: World, v: World, s: State, n: nat)
    requires Bound(s) && IntentsOk(s) && n < |s.intents| && SendsOnly(w, v, s, n) && FlightOk(w, s)
    ensures FlightOk(v, s) && NetworkOk(v, s)
  {
    SendKeepsCopies(w, v, s, n);
    forall f | f in v.flying ensures Unacked(v, s, f) && CarriesForward(v, s, f) {
      SendKeepsUnacked(w, v, s, n, f);
      var k :| Carries(v, s, f, k) && s.intents[k].id.None?;
    }
  }

  lemma SendKeepsCreated(w: World, v: World, s: State, n: nat)
    requires Bound(s) && IntentsOk(s) && n < |s.intents| && SendsOnly(w, v, s, n) && FlightOk(w, s) && CreatedOk(w, s)
    ensures CreatedOk(v, s)
  {
    SendKeepsCopies(w, v, s, n);
    forall k | 0 <= k < |s.intents| && s.intents[k].before.None? ensures CreationOk(v, s, k) {
      assert CreationOk(w, s, k);
    }
  }

  lemma SendKeepsRest(w: World, v: World, s: State, n: nat)
    requires Inv(w) && w.active == Some(s) && Bound(s) && n < |s.intents| && SendsOnly(w, v, s, n)
    requires s.status == Armed && BoundOk(v, s)
    ensures Inv(v)
  {
    SendKeepsTimes(w, v, s, n);
    SendKeepsLedger(w, v, s, n);
  }

  lemma SendKeepsTimes(w: World, v: World, s: State, n: nat)
    requires TimesOk(w) && Bound(s) && n < |s.intents| && SendsOnly(w, v, s, n)
    ensures TimesOk(v)
  {
    forall f | f in v.flying ensures f.at <= v.clock < f.at + LIFETIME_MS {
      if f != Flight(Forward(s, n), w.clock) { assert f in w.flying; }
    }
  }

  lemma SendKeepsLedger(w: World, v: World, s: State, n: nat)
    requires w.active == Some(s) && Bound(s) && n < |s.intents| && SendsOnly(w, v, s, n)
    requires forall key :: key in w.sent ==> SentOk(w, key)
    ensures forall key :: key in v.sent ==> SentOk(v, key)
  {
    forall key | key in v.sent ensures SentOk(v, key) {
      if key in w.sent { assert SentOk(w, key); }
    }
  }

  predicate SendsOnly(w: World, v: World, s: State, n: nat)
    requires Bound(s) && n < |s.intents|
  {
    && KeyOf(s, s.intents[n].change) !in w.sent && s.intents[n].id.None?
    && v == w.(sent := w.sent[KeyOf(s, s.intents[n].change) := w.clock], flying := w.flying + multiset{Flight(Forward(s, n), w.clock)})
  }

  /** The write of intent n was not in the network; now it is there once. Nothing else changed. */
  lemma SendKeepsCopies(w: World, v: World, s: State, n: nat)
    requires Bound(s) && IntentsOk(s) && n < |s.intents| && SendsOnly(w, v, s, n) && FlightOk(w, s)
    ensures Copies(v, s, n) == 1
    ensures forall k :: 0 <= k < |s.intents| && k != n ==> Copies(v, s, k) == Copies(w, s, k)
  {
    forall k | 0 <= k < |s.intents| && k != n ensures Copies(v, s, k) == Copies(w, s, k) {
      OthersForwardDiffer(s, k, n);
      DifferentKeys(s, k, n);
    }
    if Flight(Forward(s, n), w.clock) in w.flying {
      var k :| Carries(w, s, Flight(Forward(s, n), w.clock), k) && s.intents[k].id.None?;
      if k != n { OthersForwardDiffer(s, k, n); }
      assert false;
    }
  }

  lemma SendKeepsUnacked(w: World, v: World, s: State, n: nat, f: Flight)
    requires Bound(s) && IntentsOk(s) && n < |s.intents| && SendsOnly(w, v, s, n) && FlightOk(w, s) && f in v.flying
    ensures Unacked(v, s, f)
  {
    if f == Flight(Forward(s, n), w.clock) {
      assert Carries(v, s, f, n);
    } else {
      assert f in w.flying;
      var k :| Carries(w, s, f, k) && s.intents[k].id.None?;
      if k != n { DifferentKeys(s, k, n); }
      assert Carries(v, s, f, k);
    }
  }

  lemma OthersForwardDiffer(s: State, k: nat, m: nat)
    requires Bound(s) && IntentsOk(s) && k < |s.intents| && m < |s.intents| && k != m
    ensures Forward(s, k) != Forward(s, m)
  {
    DifferentKeys(s, k, m);
  }

  lemma ForwardIsOk(s: State, k: nat)
    requires Bound(s) && k < |s.intents|
    ensures RequestOk(s, Forward(s, k))
  {
    var i := s.intents[k];
    if i.before.Some? {
      assert Replaces(s, k, i.change.zoneId, i.before.value.id);
    } else {
      assert Creates(s, k, i.change.zoneId);
    }
  }

  lemma AckKeepsInv(w: World, k: nat, id: RouteId)
    requires Inv(w) && Enabled(w, Ack(k, id))
    ensures Inv(Next(w, Ack(k, id)))
  {
    var v := Next(w, Ack(k, id));
    var s, t := w.active.value, v.active.value;
    assert BoundOk(w, s) && ArmedOk(w, s);
    IdEditKeepsIntents(s, t, k, id);
    AckKeepsArmed(w, v, s, t, k, id);
    IdEditKeepsCreated(w, v, s, t, k, id);
    ExtendsKeepsBound(w, v, s, t);
    LeaseKeepsInv(w, v, s, t);
  }

  lemma AckKeepsArmed(w: World, v: World, s: State, t: State, k: nat, id: RouteId)
    requires Bound(s) && ArmedOk(w, s) && k < |s.intents|
    requires t == s.(intents := s.intents[k := s.intents[k].(id := Some(id))])
    requires RowApplied(s, w.live, k, id) && Copies(w, s, k) == 0
    requires v.flying == w.flying && v.sent == w.sent && v.live == w.live
    ensures ArmedOk(v, t)
  {
    AckKeepsFlight(w, v, s, t, k, id);
    forall m | 0 <= m < |t.intents| && t.intents[m].id.Some? ensures RowApplied(t, v.live, m, t.intents[m].id.value) {
      assert RowApplied(s, w.live, m, t.intents[m].id.value);
      SameBaseIds(s, t, t.intents[m].id.value);
    }
  }

  lemma AckKeepsFlight(w: World, v: World, s: State, t: State, k: nat, id: RouteId)
    requires Bound(s) && FlightOk(w, s) && k < |s.intents|
    requires t == s.(intents := s.intents[k := s.intents[k].(id := Some(id))])
    requires Copies(w, s, k) == 0 && v.flying == w.flying && v.sent == w.sent
    ensures FlightOk(v, t)
  {
    forall f | f in v.flying ensures Unacked(v, t, f) {
      UnackedCarried(w, v, s, t, f);
    }
    forall m | 0 <= m < |t.intents| ensures Copies(v, t, m) <= 1 {
      assert Copies(v, t, m) == Copies(w, s, m);
    }
  }

  lemma IdEditKeepsCreated(w: World, v: World, s: State, t: State, k: nat, id: RouteId)
    requires Bound(s) && CreatedOk(w, s) && LiveSane(w) && k < |s.intents| && RowApplied(s, w.live, k, id)
    requires t == s.(intents := s.intents[k := s.intents[k].(id := Some(id))])
    requires v.flying == w.flying && v.sent == w.sent && v.live == w.live
    ensures CreatedOk(v, t)
  {
    forall m | 0 <= m < |t.intents| && t.intents[m].before.None? ensures CreationOk(v, t, m) {
      assert CreationOk(w, s, m) && Copies(v, t, m) == Copies(w, s, m);
      if m == k {
        assert Listed(w.live, s.intents[k].change);
        assert UniquePatterns(w.live[s.intents[k].change.zoneId]);
      }
    }
  }

  lemma IdEditKeepsIntents(s: State, t: State, k: nat, id: RouteId)
    requires Bound(s) && IntentsOk(s) && k < |s.intents|
    requires t.plan == s.plan && t.baseline == s.baseline && t.intents == s.intents[k := s.intents[k].(id := Some(id))]
    requires if s.intents[k].before.Some? then id == s.intents[k].before.value.id else !BaseId(s, id)
    ensures IntentsOk(t) && Extends(s, t)
    ensures forall x :: BaseId(t, x) <==> BaseId(s, x)
  {
    forall m | 0 <= m < |t.intents| ensures IntentOk(t, m) {
      assert IntentOk(s, m);
    }
  }

  lemma SentSurvives(w: World, v: World, s: State, t: State)
    requires w.active == Some(s) && v.active == Some(t) && v.sent == w.sent && v.history == w.history
    requires t.scope == s.scope && |s.intents| <= |t.intents|
    requires forall k :: 0 <= k < |s.intents| ==> t.intents[k].change == s.intents[k].change
    requires forall key :: key in w.sent ==> SentOk(w, key)
    ensures forall key :: key in v.sent ==> SentOk(v, key)
  {
    forall key | key in v.sent ensures SentOk(v, key) {
      assert SentOk(w, key);
      if key.op !in w.history {
        var k :| 0 <= k < |s.intents| && key == KeyOf(s, s.intents[k].change);
        assert key == KeyOf(t, t.intents[k].change);
      }
    }
  }

  lemma RestoringKeepsInv(w: World, e: Event)
    requires Inv(w) && Enabled(w, e) && (e.MarkFailed? || e.StartRound? || e.Wake?)
    ensures Inv(Next(w, e))
  {
    var s, t := w.active.value, Next(w, e).active.value;
    assert BoundOk(w, s);
    RestoringRecord(w, s, e);
    SameIdsKeepIntents(s, t);
    SameIdsKeepCreated(w, Next(w, e), s, t);
    ActiveEditKeepsInv(w, Next(w, e), s, t);
  }

  /** Whatever a round writes, the intents still name the same changes under the same ids, and the
      first clean round is dated when it ends. */
  lemma RestoringRecord(w: World, s: State, e: Event)
    requires w.active == Some(s) && Bound(s)
    requires Enabled(w, e) && (e.MarkFailed? || e.StartRound? || e.Wake?)
    ensures var t := Next(w, e).active.value;
            && Next(w, e) == w.(active := Some(t), readBack := Next(w, e).readBack) && InRound(t)
            && (t.restoredAt == s.restoredAt || t.restoredAt == Some(w.clock))
            && t.plan == s.plan && t.baseline == s.baseline && |t.intents| == |s.intents| && t.scope == s.scope
            && (forall k :: 0 <= k < |s.intents| ==>
                  t.intents[k].change == s.intents[k].change && t.intents[k].before == s.intents[k].before && t.intents[k].id == s.intents[k].id)
  {
  }

  lemma NoteIdKeepsInv(w: World, k: nat, id: RouteId)
    requires Inv(w) && Enabled(w, NoteId(k, id))
    ensures Inv(Next(w, NoteId(k, id)))
  {
    var s, t := w.active.value, Next(w, NoteId(k, id)).active.value;
    assert BoundOk(w, s);
    IdEditKeepsIntents(s, t, k, id);
    IdEditKeepsCreated(w, Next(w, NoteId(k, id)), s, t, k, id);
    ActiveEditKeepsInv(w, Next(w, NoteId(k, id)), s, t);
  }

  /** A new stored record outside the armed phase, naming the same changes. */
  lemma ActiveEditKeepsInv(w: World, v: World, s: State, t: State)
    requires Inv(w) && w.active == Some(s) && Bound(s) && v == w.(active := Some(t), readBack := v.readBack)
    requires Extends(s, t) && IntentsOk(t) && |t.intents| == |s.intents| && t.scope == s.scope
    requires InRound(t) && CreatedOk(v, t)
    requires t.restoredAt == s.restoredAt || t.restoredAt == Some(w.clock)
    ensures Inv(v)
  {
    assert BoundOk(w, s);
    FenceKept(w, v, s, t);
    ExtendsKeepsBound(w, v, s, t);
    LeaseKeepsInv(w, v, s, t);
  }

  /** An edit that sends nothing keeps the accounting of the fence. */
  lemma FenceKept(w: World, v: World, s: State, t: State)
    requires Bound(s) && Bound(t) && FencedOk(w, s) && TimesOk(w) && v.sent == w.sent && v.clock == w.clock && t.scope == s.scope
    requires t.restoredAt == s.restoredAt || t.restoredAt == Some(w.clock)
    requires t.restoredAt.None? || (InRound(t) && |t.intents| == |s.intents|)
    requires t.status != Released && |s.intents| <= |t.intents|
    requires forall k :: 0 <= k < |s.intents| ==> t.intents[k].change == s.intents[k].change
    ensures FencedOk(v, t)
  {
  }

  lemma SameIdsKeepCreated(w: World, v: World, s: State, t: State)
    requires Bound(s) && CreatedOk(w, s) && t.plan == s.plan && t.baseline == s.baseline && |t.intents| == |s.intents| && t.scope == s.scope
    requires forall k :: 0 <= k < |s.intents| ==> t.intents[k].change == s.intents[k].change
                                                  && t.intents[k].before == s.intents[k].before && t.intents[k].id == s.intents[k].id
    requires v.sent == w.sent && v.live == w.live && v.flying == w.flying
    ensures CreatedOk(v, t)
  {
    forall k | 0 <= k < |t.intents| && t.intents[k].before.None? ensures CreationOk(v, t, k) {
      assert CreationOk(w, s, k) && Copies(v, t, k) == Copies(w, s, k);
    }
  }

  lemma SameIdsKeepIntents(s: State, t: State)
    requires Bound(s) && IntentsOk(s) && t.plan == s.plan && t.baseline == s.baseline && |t.intents| == |s.intents|
    requires forall k :: 0 <= k < |s.intents| ==> t.intents[k].change == s.intents[k].change
                                                  && t.intents[k].before == s.intents[k].before && t.intents[k].id == s.intents[k].id
    ensures IntentsOk(t) && Extends(s, t)
  {
    forall k | 0 <= k < |t.intents| ensures IntentOk(t, k) {
      assert IntentOk(s, k);
    }
  }

  lemma SendRestoreKeepsInv(w: World, req: Request)
    requires Inv(w) && Enabled(w, SendRestore(req))
    ensures Inv(Next(w, SendRestore(req)))
  {
    var v := Next(w, SendRestore(req));
    var s := w.active.value;
    assert BoundOk(w, s);
    UndoIsShaped(s, req);
    forall k | 0 <= k < |s.intents| && s.intents[k].before.None? ensures CreationOk(v, s, k) {
      assert CreationOk(w, s, k) && req != Forward(s, k);
    }
    forall f | f in v.flying ensures CarriesForward(v, s, f) || CarriesUndo(v, s, f) {
      UndoJoins(w, v, s, req, f);
    }
    SendingKeepsBound(w, v, s);
    UndoKeepsTimes(w, v, req);
    LeaseKeepsInv(w, v, s, s);
  }

  lemma UndoKeepsTimes(w: World, v: World, req: Request)
    requires TimesOk(w) && v == w.(flying := w.flying + multiset{Flight(req, w.clock)}, lastUndo := Some(w.clock))
    ensures TimesOk(v)
  {
    forall f | f in v.flying ensures f.at <= v.clock < f.at + LIFETIME_MS {
      if f != Flight(req, w.clock) { assert f in w.flying; }
    }
  }

  lemma UndoJoins(w: World, v: World, s: State, req: Request, f: Flight)
    requires Bound(s) && NetworkOk(w, s) && TimesOk(w) && UndoShaped(s, req) && f in v.flying
    requires v == w.(flying := w.flying + multiset{Flight(req, w.clock)}, lastUndo := Some(w.clock))
    ensures CarriesForward(v, s, f) || CarriesUndo(v, s, f)
  {
    if f != Flight(req, w.clock) {
      assert f in w.flying;
      if CarriesForward(w, s, f) {
        var k :| Carries(w, s, f, k);
        assert Carries(v, s, f, k);
      }
    }
  }

  lemma UndoIsShaped(s: State, req: Request)
    requires Bound(s) && WellBound(s.plan.value, s.baseline.value) && IntentsOk(s) && Undoes(s, req)
    ensures UndoShaped(s, req)
  {
    if req.Delete? {
      var k :| Creates(s, k, req.zone) && s.intents[k].id == Some(req.id);
      assert IntentOk(s, k);
      var zone := ZoneOfIntent(s, k);
      var a :| 0 <= a < |s.baseline.value| && s.baseline.value[a] == zone;
    }
  }

  lemma SettleKeepsInv(w: World, e: Event)
    requires Inv(w) && Enabled(w, e) && (e.Accept? || e.Release?)
    ensures Inv(Next(w, e))
  {
    var v := Next(w, e);
    var s, t := w.active.value, v.active.value;
    assert BoundOk(w, s);
    SameIdsKeepIntents(s, t);
    SameIdsKeepCreated(w, v, s, t);
    SettledLetsGo(w, e);
    ExtendsKeepsBound(w, v, s, t);
    LeaseKeepsInv(w, v, s, t);
  }

  lemma SettledLetsGo(w: World, e: Event)
    requires Enabled(w, e) && (e.Accept? || e.Release?)
    requires w.active.Some? && Bound(w.active.value) && FencedOk(w, w.active.value)
    requires e.Accept? ==> ArmedOk(w, w.active.value)
    ensures var v := Next(w, e); var t := v.active.value;
            LetGo(t, v.live) && FencedOk(v, t) && (e.Accept? ==> v.flying == multiset{})
  {
    var s, t := w.active.value, Next(w, e).active.value;
    if e.Accept? {
      NothingFliesWhenAcked(w, s);
      AckedStaysShown(s, t, w.live);
    }
  }

  lemma AckedStaysShown(s: State, t: State, live: map<ZoneId, Table>)
    requires Bound(s) && AckedShown(s, live) && FullyApplied(s, live)
    requires t == s.(status := t.status, acceptedReport := t.acceptedReport)
    ensures Settled(t, live)
  {
    forall k | 0 <= k < |t.intents| && t.intents[k].id.Some? ensures RowApplied(t, live, k, t.intents[k].id.value) {
      assert RowApplied(s, live, k, s.intents[k].id.value);
      SameBaseIds(s, t, s.intents[k].id.value);
    }
  }

  lemma NothingFliesWhenAcked(w: World, s: State)
    requires Bound(s) && FlightOk(w, s) && AllAcked(s)
    ensures w.flying == multiset{}
  {
    forall f ensures f !in w.flying {
      assert !Unacked(w, s, f);
    }
  }

  predicate AtProvider(e: Event) { e.Land? || e.Vanish? || e.SendForward? || e.Ack? || e.SendRestore? }

  lemma ProviderKeepsInv(w: World, e: Event)
    requires Inv(w) && Enabled(w, e) && AtProvider(e)
    ensures Inv(Next(w, e))
  {
    match e
    case Land(f) => LandKeepsInv(w, f);
    case Vanish(f) => VanishKeepsInv(w, f);
    case SendForward => SendForwardKeepsInv(w);
    case Ack(k, id) => AckKeepsInv(w, k, id);
    case SendRestore(req) => SendRestoreKeepsInv(w, req);
  }

  /** The invariant is inductive: no enabled event breaks it, a reservation excepted that comes while
      an undoing write may still be in the network. */
  lemma NextKeepsInv(w: World, e: Event)
    requires Inv(w) && Enabled(w, e) && (e.Reserve? ==> Rested(w))
    ensures Inv(Next(w, e))
  {
    if AtProvider(e) {
      ProviderKeepsInv(w, e);
    } else if e.Tick? {
      TickKeepsInv(w, e.to);
    } else if e.MarkFailed? || e.StartRound? || e.Wake? {
      RestoringKeepsInv(w, e);
    } else if e.NoteId? {
      NoteIdKeepsInv(w, e.k, e.id);
    } else if e.Bind? {
      BindKeepsInv(w, e.plan, e.zones);
    } else if e.SaveIntent? {
      SaveIntentKeepsInv(w, e.change);
    } else if e.Accept? || e.Release? {
      SettleKeepsInv(w, e);
    } else {
      BookkeepingKeepsInv(w, e);
    }
  }
}
