/** What the watchdog's handlers may conclude from the log of events kept beside their storage being a
    run of the protocol. */
module WatchdogLog {
  import opened Options
  import opened Routes
  import opened WatchdogProtocol
  import opened WatchdogSafety
  import opened WatchdogAlways
  import opened WatchdogLate
  import opened WatchdogRuns
  import opened WatchdogRounds

  /** What holds of a bound lease, as the handlers use it. */
  lemma BoundNow(o: World, log: seq<Event>, w: World, s: State)
    requires CarefulTo(o, log, w) && w.active == Some(s) && Bound(s)
    ensures WellBound(s.plan.value, s.baseline.value) && IntentsOk(s) && LiveOk(s, w.live) && LiveSane(w)
    ensures forall id :: BaseId(s, id) ==> id.n < w.issued
    ensures s.status == Armed ==> FlightOk(w, s) && AckedShown(s, w.live)
    ensures s.status == Armed && AllAcked(s) ==> w.flying == multiset{}
  {
    InvNow(o, log, w);
    assert BoundOk(w, s);
    if s.status == Armed && AllAcked(s) { NothingFliesWhenAcked(w, s); }
  }

  /** What holds of it unless the last two leases were reserved early. */
  lemma ZonesNow(o: World, log: seq<Event>, w: World, s: State)
    requires RunsTo(o, log, w) && !EarlyTwice(o, log) && w.active == Some(s) && Bound(s)
    ensures WellBound(s.plan.value, s.baseline.value) && IntentsOk(s) && LiveOk(s, w.live) && LiveSane(w)
    ensures forall id :: BaseId(s, id) ==> id.n < w.issued
  {
    AlwaysNow(o, log, w);
    RunEnds(o, log, w);
    LateAlongRun(o, log);
    assert BoundAlways(w, s);
    BaseIdsIssued(w, s);
  }

  lemma LeaseShape(o: World, log: seq<Event>, w: World, s: State)
    requires CarefulTo(o, log, w) && w.active == Some(s)
    ensures s.status == Reserved ==> w.flying == multiset{} && !Bound(s)
    ensures s.status != Reserved && s.status != Released ==> Bound(s)
    ensures ScopeOk(s.scope) && (s.plan.Some? <==> s.baseline.Some?)
  {
    InvNow(o, log, w);
  }

  lemma EmptyNow(o: World, log: seq<Event>, w: World)
    requires RunsTo(o, log, w) && Rested(w) && (w.active.Some? ==> Finished(w.active.value))
    ensures w.flying == multiset{}
  {
    AlwaysNow(o, log, w);
    RestedIsEmpty(w);
  }

  // ------------------------------------------------------------------ secured intents

  /** An armed lease's intent shows at the provider and its request has left the network. */
  ghost predicate SecuredIn(w: World, k: nat, id: RouteId) {
    && w.active.Some? && Bound(w.active.value) && w.active.value.status == Armed && k < |w.active.value.intents|
    && RowApplied(w.active.value, w.live, k, id) && Copies(w, w.active.value, k) == 0
  }

  ghost predicate StaySecured(w: World, v: World) {
    forall k, id :: SecuredIn(w, k, id) ==> SecuredIn(v, k, id)
  }

  /** Another request arriving or getting lost disturbs no secured intent. */
  lemma SecuredStays(o: World, log: seq<Event>, w: World, v: World, f: Flight)
    requires CarefulTo(o, log, w) && f in w.flying
    requires v.active == w.active && v.flying == w.flying - multiset{f} && v.sent == w.sent
    requires v.live == w.live || v.live == Landed(w.live, f.req, RouteId(w.issued))
    ensures StaySecured(w, v)
  {
    if w.active.Some? && Bound(w.active.value) && w.active.value.status == Armed {
      BoundNow(o, log, w, w.active.value);
      forall k, id | SecuredIn(w, k, id) ensures SecuredIn(v, k, id) {
        if v.live == w.live {
          StaysOnLoss(w, v, w.active.value, f, k, id);
        } else {
          StaysOnLanding(w, v, w.active.value, f, k, id);
        }
      }
    }
  }

  lemma StaysOnLanding(w: World, v: World, s: State, f: Flight, k: nat, id: RouteId)
    requires w.active == v.active == Some(s) && Bound(s) && WellBound(s.plan.value, s.baseline.value) && IntentsOk(s) && LiveSane(w)
    requires FlightOk(w, s) && f in w.flying && SecuredIn(w, k, id) && v.sent == w.sent
    requires v.live == Landed(w.live, f.req, RouteId(w.issued)) && v.flying == w.flying - multiset{f}
    ensures SecuredIn(v, k, id)
  {
    assert Unacked(w, s, f);
    var m :| Carries(w, s, f, m) && s.intents[m].id.None?;
    OtherForwardSparesRow(w, s, k, id, m, RouteId(w.issued));
    assert Copies(v, s, k) <= Copies(w, s, k);
  }

  lemma StaysOnLoss(w: World, v: World, s: State, f: Flight, k: nat, id: RouteId)
    requires w.active == v.active == Some(s) && SecuredIn(w, k, id) && v.sent == w.sent
    requires v.live == w.live && v.flying == w.flying - multiset{f}
    ensures SecuredIn(v, k, id)
  {
    assert Copies(v, s, k) <= Copies(w, s, k);
  }

  /** The forward write of intent k, applied by the provider just now. */
  lemma OwnLanding(o: World, log: seq<Event>, w: World, v: World, s: State, k: nat, id: RouteId)
    requires CarefulTo(o, log, w) && w.active == v.active == Some(s) && Bound(s) && s.status == Armed && k < |s.intents|
    requires Copies(w, s, k) > 0 && v.flying == w.flying - multiset{ForwardFlight(w.sent, s, k)} && v.sent == w.sent
    requires id == (if s.intents[k].before.Some? then s.intents[k].before.value.id else RouteId(w.issued))
    requires ListsRow(v.live, s.intents[k].change.zoneId, id, WorkerRow(s, k))
    ensures SecuredIn(v, k, id)
  {
    BoundNow(o, log, w, s);
    assert Copies(w, s, k) <= 1;
  }

  // ------------------------------------------------------------------ zones put back

  /** A restored lease has outlasted its fence and zone a is read back to its baseline. */
  ghost predicate BackIn(w: World, a: nat) {
    w.active.Some? && Outlasted(w.active.value, w.clock) && ZoneBack(w, a)
  }

  ghost predicate StayBack(w: World, v: World) { forall a :: BackIn(w, a) ==> BackIn(v, a) }

  /** Whatever still arrives, it changes no zone that is back: only undoing writes are left. */
  lemma BackStays(o: World, log: seq<Event>, w: World, v: World, f: Flight)
    requires RunsTo(o, log, w) && f in w.flying && v.active == w.active && v.clock == w.clock
    requires v.live == w.live || v.live == Landed(w.live, f.req, RouteId(w.issued))
    ensures StayBack(w, v)
  {
    if w.active.Some? && Outlasted(w.active.value, w.clock) {
      var s := w.active.value;
      AlwaysNow(o, log, w);
      assert BoundAlways(w, s);
      FenceOutlastsForwards(o, log, w, s);
      forall a | BackIn(w, a) ensures BackIn(v, a) {
        UndoFindsNothing(s, w.live, f.req, RouteId(w.issued), a);
      }
    }
  }

  predicate ListsRow(live: map<ZoneId, Table>, z: ZoneId, id: RouteId, row: Row) {
    z in live && id in live[z] && live[z][id] == row
  }

  // ------------------------------------------------------------------ what the handlers' checks find

  /** An unsaved change was never sent forward. */
  lemma FreshKey(o: World, log: seq<Event>, w: World, s: State, c: Change)
    requires RunsTo(o, log, w) && w.active == Some(s) && s.status == Armed && !HasIntent(s, c)
    ensures KeyOf(s, c) !in w.sent
  {
    AlwaysNow(o, log, w);
    forall key | key in w.sent ensures key != KeyOf(s, c) {
      assert SentOk(w, key);
    }
  }

  /** The listing a handler builds for an armed zone is the listing the provider shows. */
  lemma ZoneAsExpected(o: World, log: seq<Event>, w: World, s: State, zone: Zone)
    requires CarefulTo(o, log, w) && w.active == Some(s) && Bound(s) && s.status == Armed
    requires zone in s.baseline.value && Acked(zone.id, s.intents)
    ensures var e := Expected(zone.routes, zone.id, s.intents, s.plan.value.workerName);
            Distinct(e) && zone.id in w.live && w.live[zone.id] == TableOf(e)
  {
    BoundNow(o, log, w, s);
    AlwaysNow(o, log, w);
    IntentsGrounded(w, s, zone);
    ExpectedIsApplied(zone.routes, zone.id, s.intents, s.plan.value.workerName);
    ArmedZoneIsApplied(w, s, zone);
  }

  /** The route an intent replaces is always listed: as it was, or carrying that intent. */
  lemma ReplacedShows(s: State, live: map<ZoneId, Table>, k: nat)
    requires Bound(s) && WellBound(s.plan.value, s.baseline.value) && IntentsOk(s) && LiveOk(s, live)
    requires k < |s.intents| && s.intents[k].before.Some?
    ensures var z, b := s.intents[k].change.zoneId, s.intents[k].before.value;
            && z in live && b.id in live[z] && b.pattern == s.intents[k].change.pattern && UniquePatterns(live[z])
            && (live[z][b.id] == b.ToRow() || live[z][b.id] == WorkerRow(s, k))
  {
    var zone := ZoneOfIntent(s, k);
    var a :| 0 <= a < |s.baseline.value| && s.baseline.value[a] == zone;
    assert ZoneOk(s, zone, live[zone.id]);
    ReplacedRow(s, zone, k);
    forall m: nat | Replaces(s, m, zone.id, s.intents[k].before.value.id) ensures m == k {
      if m != k { BeforeInjective(s, k, m); }
    }
  }

  /** A route listed under an added pattern is the one its intent created. */
  lemma AddedShows(o: World, log: seq<Event>, w: World, s: State, k: nat, id: RouteId)
    requires RunsTo(o, log, w) && !EarlyTwice(o, log) && w.active == Some(s) && Bound(s) && k < |s.intents| && s.intents[k].before.None?
    requires var c := s.intents[k].change; c.zoneId in w.live && id in w.live[c.zoneId] && w.live[c.zoneId][id].pattern == c.pattern
    ensures !BaseId(s, id) && w.live[s.intents[k].change.zoneId][id] == WorkerRow(s, k)
    ensures s.intents[k].id.Some? ==> s.intents[k].id.value == id
  {
    ZonesNow(o, log, w, s);
    ListedIsAdded(s, w.live, k, id);
    CreationNow(o, log, w, s, k);
  }

  lemma CreationNow(o: World, log: seq<Event>, w: World, s: State, k: nat)
    requires RunsTo(o, log, w) && w.active == Some(s) && Bound(s) && k < |s.intents| && s.intents[k].before.None?
    ensures CreationOk(w, s, k)
  {
    AlwaysNow(o, log, w);
    assert BoundAlways(w, s);
  }

  /** A forward write the provider gets to handle is never refused. */
  lemma ForwardTakesEffect(o: World, log: seq<Event>, w: World, s: State, k: nat)
    requires RunsTo(o, log, w) && !EarlyTwice(o, log) && w.active == Some(s) && Bound(s) && k < |s.intents|
    requires Copies(w, s, k) > 0
    ensures var id := if s.intents[k].before.Some? then s.intents[k].before.value.id else RouteId(w.issued);
            ListsRow(Landed(w.live, Forward(s, k), RouteId(w.issued)), s.intents[k].change.zoneId, id, WorkerRow(s, k))
  {
    ZonesNow(o, log, w, s);
    if s.intents[k].before.Some? {
      ReplacedShows(s, w.live, k);
    } else {
      CreationNow(o, log, w, s, k);
      var zone := ZoneOfIntent(s, k);
      var a :| 0 <= a < |s.baseline.value| && s.baseline.value[a] == zone;
    }
  }

  /** `baseline.some(z => z.routes.some(old => old.id === id))`. */
  predicate IsBaseRoute(zones: seq<Zone>, id: RouteId) {
    exists a :: 0 <= a < |zones| && FindRoute(zones[a].routes, id).Some?
  }

  lemma IsBaseRouteIff(s: State, id: RouteId)
    requires Bound(s) && WellBound(s.plan.value, s.baseline.value)
    ensures IsBaseRoute(s.baseline.value, id) <==> BaseId(s, id)
  {
    forall a | 0 <= a < |s.baseline.value|
      ensures FindRoute(s.baseline.value[a].routes, id).Some? <==> id in TableOf(s.baseline.value[a].routes)
    {
      FindRouteHits(s.baseline.value[a].routes, id);
      TableHolds(s.baseline.value[a].routes);
    }
  }

  lemma AckedShows(o: World, log: seq<Event>, w: World, s: State, k: nat)
    requires CarefulTo(o, log, w) && w.active == Some(s) && Bound(s) && s.status == Armed
    requires k < |s.intents| && s.intents[k].id.Some?
    ensures RowApplied(s, w.live, k, s.intents[k].id.value)
  {
    BoundNow(o, log, w, s);
  }

  /** The provider's own rules let the request through. */
  predicate Accepts(live: map<ZoneId, Table>, req: Request) {
    && req.zone in live
    && var t := live[req.zone];
       match req
       case Put(_, id, row) => id in t && forall other :: other in t && other != id ==> t[other].pattern != row.pattern
       case Post(_, row) => forall other :: other in t ==> t[other].pattern != row.pattern
       case Delete(_, id) => id in t
  }

  /** What a restoring wake reads about a replaced route. */
  lemma ReplacedListed(o: World, log: seq<Event>, w: World, s: State, k: nat, rows: seq<Route>)
    requires RunsTo(o, log, w) && !EarlyTwice(o, log) && w.active == Some(s) && Bound(s) && k < |s.intents| && s.intents[k].before.Some?
    requires s.intents[k].change.zoneId in w.live && Distinct(rows) && TableOf(rows) == w.live[s.intents[k].change.zoneId]
    ensures var z, b := s.intents[k].change.zoneId, s.intents[k].before.value;
            var actual := FindRoute(rows, b.id);
            && actual.Some? && actual.value.id == b.id
            && (actual.value == b || actual.value.ToRow() == WorkerRow(s, k))
            && (actual.value == b ==> w.live == w.live[z := w.live[z][b.id := b.ToRow()]])
            && Accepts(w.live, Put(z, b.id, b.ToRow()))
            && Landed(w.live, Put(z, b.id, b.ToRow()), RouteId(w.issued)) == w.live[z := w.live[z][b.id := b.ToRow()]]
  {
    ZonesNow(o, log, w, s);
    ReplacedShows(s, w.live, k);
    var z, b := s.intents[k].change.zoneId, s.intents[k].before.value;
    FindRouteInTable(rows, b.id);
    if w.live[z][b.id] == b.ToRow() {
      assert w.live[z][b.id := b.ToRow()] == w.live[z];
    }
  }

  /** What a restoring wake reads about an added route. */
  lemma AddedListed(o: World, log: seq<Event>, w: World, s: State, k: nat, rows: seq<Route>)
    requires RunsTo(o, log, w) && !EarlyTwice(o, log) && w.active == Some(s) && Bound(s) && k < |s.intents| && s.intents[k].before.None?
    requires s.intents[k].change.zoneId in w.live && Distinct(rows) && TableOf(rows) == w.live[s.intents[k].change.zoneId]
    ensures var c := s.intents[k].change;
            var actual := FindPattern(rows, c.pattern);
            && (actual.Some? <==> Listed(w.live, c))
            && (actual.Some? ==>
                  && actual.value.id == ListedId(w.live, c)
                  && actual.value.ToRow() == WorkerRow(s, k) && (s.intents[k].id.Some? ==> s.intents[k].id.value == actual.value.id)
                  && !IsBaseRoute(s.baseline.value, actual.value.id) && RowApplied(s, w.live, k, actual.value.id))
  {
    var c := s.intents[k].change;
    FindPatternInTable(rows, c.pattern);
    var actual := FindPattern(rows, c.pattern);
    if actual.Some? {
      assert Listed(w.live, c);
      AddedShows(o, log, w, s, k, actual.value.id);
      ZonesNow(o, log, w, s);
      IsBaseRouteIff(s, actual.value.id);
    }
  }
}
