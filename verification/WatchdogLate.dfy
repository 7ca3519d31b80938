/** What a lease can rely on that was reserved too early, while undoing writes of the one before may still
    be in the network. */
module WatchdogLate {
  import opened Options
  import opened Routes
  import opened WatchdogProtocol
  import opened WatchdogSafety
  import opened WatchdogAlways

  /** The provider already shows what the request writes. */
  ghost predicate WritesWhatIsShown(live: map<ZoneId, Table>, req: Request) {
    && req.zone in live
    && match req
       case Put(z, id, row) => id in live[z] && live[z][id] == row
       case Post(_, _) => false
       case Delete(z, id) => id !in live[z]
  }

  /** In every zone of the lease the request writes what the baseline has. */
  ghost predicate WritesBaseline(s: State, req: Request)
    requires Bound(s)
  {
    forall zone :: zone in s.baseline.value && zone.id == req.zone ==> WritesWhatIsShown(map[zone.id := TableOf(zone.routes)], req)
  }

  ghost predicate Tolerated(w: World, s: State, req: Request) {
    if Bound(s) then RequestOk(s, req) || WritesBaseline(s, req) else WritesWhatIsShown(w.live, req)
  }

  /** Every zone is its baseline with some saved intents applied, and what is in the network leaves it so. */
  ghost predicate Late(w: World) {
    w.active.Some? ==>
      var s := w.active.value;
      (Bound(s) ==> LiveOk(s, w.live)) && forall f :: f in w.flying ==> Tolerated(w, s, f.req)
  }

  lemma InvIsLate(w: World)
    requires Inv(w)
    ensures Late(w)
  {
    if w.active.Some? {
      forall f | f in w.flying ensures Tolerated(w, w.active.value, f.req) {
        var s := FlyingLease(w, f);
        FlightIsOk(w, s, f);
      }
    }
  }

  // ------------------------------------------------------------------ the reservation

  /** A released lease shows its baseline, so its undoing writes find nothing to change. */
  lemma UndoWritesWhatIsShown(s: State, live: map<ZoneId, Table>, req: Request)
    requires Bound(s) && WellBound(s.plan.value, s.baseline.value) && IntentsOk(s) && UndoShaped(s, req)
    requires ShowsBaseline(s.baseline.value, live)
    ensures WritesWhatIsShown(live, req)
  {
    if req.Put? {
      var k :| Replaces(s, k, req.zone, req.id) && req.row == s.intents[k].before.value.ToRow();
      var zone := ZoneOfIntent(s, k);
      ReplacedRow(s, zone, k);
      var a :| 0 <= a < |s.baseline.value| && s.baseline.value[a] == zone;
    }
  }

  /** A lease may be reserved at any time after one that was bound and released, or when nothing is left
      in the network. */
  lemma EarlyStart(w: World, scope: Scope)
    requires Always(w) && Enabled(w, Reserve(scope))
    requires w.flying == multiset{} || (w.active.Some? && Bound(w.active.value) && w.active.value.status == Released)
    ensures Late(Next(w, Reserve(scope)))
  {
    var v := Next(w, Reserve(scope));
    forall f | f in v.flying ensures WritesWhatIsShown(v.live, f.req) {
      var s := w.active.value;
      ReleasedOnlyUndoes(w, s, f);
      UndoWritesWhatIsShown(s, w.live, f.req);
    }
  }

  /** After a lease that kept the invariant, at any time at all. */
  lemma EarlyAfterCareful(w: World, scope: Scope)
    requires Inv(w) && Always(w) && Enabled(w, Reserve(scope))
    ensures Late(Next(w, Reserve(scope)))
  {
    EarlyStart(w, scope);
  }

  // ------------------------------------------------------------------ requests arriving

  lemma ShownChangesNothing(live: map<ZoneId, Table>, req: Request, issued: RouteId)
    requires WritesWhatIsShown(live, req)
    ensures Landed(live, req, issued) == live
  {
    match req
    case Put(z, id, row) => assert live[z][id := row] == live[z] && live[z := live[z]] == live;
    case Delete(z, id) => assert live[z] - {id} == live[z] && live[z := live[z]] == live;
  }

  lemma BaselineKeepsZone(s: State, zone: Zone, t: Table, req: Request, issued: RouteId)
    requires Bound(s) && ZoneOk(s, zone, t) && req.zone == zone.id && WritesWhatIsShown(map[zone.id := TableOf(zone.routes)], req)
    ensures ZoneOk(s, zone, Landed(map[zone.id := t], req, issued)[zone.id])
  {
    var u := Landed(map[zone.id := t], req, issued)[zone.id];
    match req
    case Put(_, id, row) => if u != t { UpdateKeepsZone(s, zone, t, id, row); }
    case Delete(_, id) => assert u == t - {id};
  }

  lemma BaselineKeepsLive(s: State, live: map<ZoneId, Table>, req: Request, issued: RouteId)
    requires Bound(s) && LiveOk(s, live) && WritesBaseline(s, req)
    ensures LiveOk(s, Landed(live, req, issued))
  {
    forall a | 0 <= a < |s.baseline.value|
      ensures s.baseline.value[a].id in Landed(live, req, issued)
      ensures ZoneOk(s, s.baseline.value[a], Landed(live, req, issued)[s.baseline.value[a].id])
    {
      var zone := s.baseline.value[a];
      assert zone in s.baseline.value && ZoneOk(s, zone, live[zone.id]);
      LandedLocally(live, req, issued, zone.id);
      if req.zone == zone.id { BaselineKeepsZone(s, zone, live[zone.id], req, issued); }
    }
  }

  /** The provider issued every id of the baseline. */
  lemma BaseIdsIssued(w: World, s: State)
    requires PatternsOk(w) && w.active == Some(s) && Bound(s) && WellBound(s.plan.value, s.baseline.value)
    ensures forall id :: BaseId(s, id) ==> id.n < w.issued
  {
    forall id | BaseId(s, id) ensures id.n < w.issued {
      var a :| 0 <= a < |s.baseline.value| && id in TableOf(s.baseline.value[a].routes);
      var zone := s.baseline.value[a];
      TableHolds(zone.routes);
      var m :| 0 <= m < |zone.routes| && zone.routes[m].id == id;
      assert zone in s.baseline.value && zone.routes[m] in zone.routes;
      assert Named(w, zone.id, id, zone.routes[m].pattern);
    }
  }

  lemma LandKeepsLate(w: World, f: Flight)
    requires Always(w) && Late(w) && Enabled(w, Land(f))
    ensures Late(Next(w, Land(f)))
  {
    var s := w.active.value;
    assert f in w.flying && Tolerated(w, s, f.req);
    LandedKeepsLate(w, Next(w, Land(f)), s, f);
  }

  lemma LandedKeepsLate(w: World, v: World, s: State, f: Flight)
    requires Always(w) && Late(w) && w.active == Some(s) && Tolerated(w, s, f.req)
    requires v == w.(live := Landed(w.live, f.req, RouteId(w.issued)), flying := w.flying - multiset{f}, issued := w.issued + 1)
    ensures Late(v)
  {
    assert forall g :: g in v.flying ==> g in w.flying;
    if !Bound(s) {
      ShownChangesNothing(w.live, f.req, RouteId(w.issued));
    } else if RequestOk(s, f.req) {
      BaseIdsIssued(w, s);
      LandKeepsLive(w, s, f.req, RouteId(w.issued));
    } else {
      BaselineKeepsLive(s, w.live, f.req, RouteId(w.issued));
    }
  }

  // ------------------------------------------------------------------ everything else

  lemma BindKeepsLate(w: World, plan: Plan, zones: seq<Zone>)
    requires Always(w) && Late(w) && Enabled(w, Bind(plan, zones))
    ensures Late(Next(w, Bind(plan, zones)))
  {
    var v := Next(w, Bind(plan, zones));
    BaselineKeepsLate(w, v, w.active.value, v.active.value);
  }

  lemma BaselineKeepsLate(w: World, v: World, s: State, t: State)
    requires LiveSane(w) && Late(w) && w.active == Some(s) && !Bound(s) && v == w.(active := Some(t))
    requires Bound(t) && ShowsBaseline(t.baseline.value, w.live)
    ensures Late(v)
  {
    forall a | 0 <= a < |t.baseline.value| ensures ZoneOk(t, t.baseline.value[a], v.live[t.baseline.value[a].id]) {
      assert v.live[t.baseline.value[a].id] == TableOf(t.baseline.value[a].routes);
    }
    forall f | f in v.flying ensures WritesBaseline(t, f.req) {
      assert WritesWhatIsShown(w.live, f.req);
    }
  }

  lemma ExtendsKeepsRequest(s: State, t: State, req: Request)
    requires Extends(s, t) && RequestOk(s, req)
    ensures RequestOk(t, req)
  {
    match req
    case Put(z, id, row) =>
      var k :| Replaces(s, k, z, id) && (row == WorkerRow(s, k) || row == s.intents[k].before.value.ToRow());
      assert Replaces(t, k, z, id) && (row == WorkerRow(t, k) || row == t.intents[k].before.value.ToRow());
    case Post(z, row) =>
      var k :| Creates(s, k, z) && row == WorkerRow(s, k);
      assert Creates(t, k, z) && row == WorkerRow(t, k);
    case Delete(_, id) => SameBaseIds(s, t, id);
  }

  lemma SaveKeepsLate(w: World, v: World, s: State, t: State)
    requires Late(w) && w.active == Some(s) && v == w.(active := Some(t), readBack := v.readBack) && Extends(s, t)
    ensures Late(v)
  {
    ExtendsKeepsZones(s, t, w.live);
    forall f | f in v.flying ensures Tolerated(v, t, f.req) {
      assert Tolerated(w, s, f.req);
      if RequestOk(s, f.req) { ExtendsKeepsRequest(s, t, f.req); }
    }
  }

  predicate SavesRecord(e: Event) {
    e.SaveIntent? || e.Ack? || e.NoteId? || e.MarkFailed? || e.StartRound? || e.Wake? || e.Accept? || e.Release?
  }

  lemma SaveExtends(w: World, e: Event)
    requires Enabled(w, e) && SavesRecord(e) && w.active.Some? && Bound(w.active.value)
    ensures var v := Next(w, e);
            && v.active.Some? && v == w.(active := v.active, readBack := v.readBack)
            && Extends(w.active.value, v.active.value)
  {
  }

  lemma SendKeepsLate(w: World, e: Event)
    requires Always(w) && Late(w) && Enabled(w, e) && (e.SendForward? || e.SendRestore?)
    ensures Late(Next(w, e))
  {
    var v, s := Next(w, e), w.active.value;
    assert BoundAlways(w, s);
    if e.SendForward? { ForwardIsOk(s, |s.intents| - 1); } else { UndoIsShaped(s, e.req); }
    forall f | f in v.flying ensures Tolerated(v, s, f.req) {
      if f in w.flying { assert Tolerated(w, s, f.req); }
    }
  }

  lemma RestKeepsLate(w: World, e: Event)
    requires Always(w) && Late(w) && Enabled(w, e)
    requires e.Tick? || e.SetAlarm? || e.ClearAlarm? || e.Archive? || e.ReadBack? || e.Vanish? || e.FreeUnbound?
    ensures Late(Next(w, e))
  {
    var v := Next(w, e);
    assert forall f :: f in v.flying ==> f in w.flying;
    if v.active.Some? {
      forall f | f in v.flying ensures Tolerated(v, v.active.value, f.req) { assert Tolerated(w, w.active.value, f.req); }
    }
  }

  lemma NextKeepsLate(w: World, e: Event)
    requires Always(w) && Late(w) && Enabled(w, e) && !e.Reserve?
    ensures Late(Next(w, e))
  {
    if e.Land? {
      LandKeepsLate(w, e.flight);
    } else if e.Bind? {
      BindKeepsLate(w, e.plan, e.zones);
    } else if e.SendForward? || e.SendRestore? {
      SendKeepsLate(w, e);
    } else if SavesRecord(e) {
      SaveExtends(w, e);
      SaveKeepsLate(w, Next(w, e), w.active.value, Next(w, e).active.value);
    } else {
      RestKeepsLate(w, e);
    }
  }

  // ------------------------------------------------------------------ runs

  /** Events m and n are the last two reservations. */
  predicate LastTwoReserved(log: seq<Event>, m: nat, n: nat) {
    LastReserved(log, n) && m < n && log[m].Reserve? && forall i :: m < i < n ==> !log[i].Reserve?
  }

  /** The last two reservations both came less than a request's lifetime after the last undoing write. */
  ghost predicate EarlyTwice(o: World, log: seq<Event>) {
    exists m: nat, n: nat :: LastTwoReserved(log, m, n) && !RestedAfter(o, log[..m]) && !RestedAfter(o, log[..n])
  }

  lemma StillEarlyTwice(o: World, log: seq<Event>, e: Event)
    requires !e.Reserve?
    ensures EarlyTwice(o, log) ==> EarlyTwice(o, log + [e])
  {
    if m: nat, n: nat :| LastTwoReserved(log, m, n) && !RestedAfter(o, log[..m]) && !RestedAfter(o, log[..n]) {
      NotReserved(o, log, e);
      assert LastTwoReserved(log + [e], m, n) && (log + [e])[..m] == log[..m] && (log + [e])[..n] == log[..n];
    }
  }

  lemma CarefulBefore(o: World, log: seq<Event>, e: Event)
    requires e.Reserve? && !EarlyTwice(o, log + [e]) && !RestedAfter(o, log)
    ensures Careful(o, log)
  {
    forall m: nat | LastReserved(log, m) ensures RestedAfter(o, log[..m]) {
      var longer := log + [e];
      assert LastTwoReserved(longer, m, |log|) && longer[..m] == log[..m] && longer[..|log|] == log;
    }
  }

  /** Unless its last two reservations were both early, a run keeps every zone of its lease on the baseline
      with some of the saved intents applied. */
  lemma {:induction false} LateAlongRun(w: World, es: seq<Event>)
    requires Init(w) && Legal(w, es) && !EarlyTwice(w, es)
    ensures Late(After(w, es).value)
  {
    if es != [] {
      var n := |es| - 1;
      var before, e := es[..n], es[n];
      assert es == before + [e];
      AlwaysAlongRun(w, before);
      if !e.Reserve? {
        StillEarlyTwice(w, before, e);
        LateAlongRun(w, before);
        NextKeepsLate(After(w, before).value, e);
      } else {
        ReservedIsLate(w, before, After(w, before).value, e);
      }
    }
  }

  lemma ReservedIsLate(o: World, log: seq<Event>, w: World, e: Event)
    requires Init(o) && Legal(o, log) && After(o, log).value == w && Always(w) && e.Reserve? && Enabled(w, e)
    requires !EarlyTwice(o, log + [e])
    ensures Late(Next(w, e))
  {
    if Rested(w) {
      RestedStartsClean(w, e.scope);
      InvIsLate(Next(w, e));
    } else {
      CarefulBefore(o, log, e);
      InvAlongRun(o, log);
      EarlyAfterCareful(w, e.scope);
    }
  }
}
