/** Restore rounds: they end, they say honestly how they went, and an undisturbed one puts every
    zone back to its baseline. */
module WatchdogRounds {
  import opened Options
  import opened Routes
  import opened WatchdogProtocol
  import opened WatchdogSafety
  import opened WatchdogRuns

  /** Intents left, zones left, hosts left, and the wake that closes the round. */
  function WakesLeft(s: State): nat
    requires Bound(s)
  {
    var routes := if RestoringRoutes(s) then s.restoreIndex.value + 1 else 0;
    var zones := if s.verifyIndex < |s.baseline.value| then |s.baseline.value| - s.verifyIndex else 0;
    var hosts := if s.originIndex < HOSTS then HOSTS - s.originIndex else 0;
    routes + zones + hosts + 1
  }

  /** Each completed wake of a round brings its end one wake nearer; the last one ends it. */
  lemma WakeFalls(s: State, ok: bool, now: int)
    requires Bound(s) && s.status == Restoring
    ensures Bound(AfterWake(s, ok, now))
    ensures AfterWake(s, ok, now).status == Restoring <==> WakesLeft(s) > 1
    ensures WakesLeft(s) > 1 ==> WakesLeft(AfterWake(s, ok, now)) == WakesLeft(s) - 1
    ensures WakesLeft(s) > 1 ==> (AfterWake(s, ok, now).roundFailed <==> s.roundFailed || !ok)
    ensures AfterWake(s, ok, now).baseline == s.baseline && (WakesLeft(s) > 1 ==> AfterWake(s, ok, now).cleanReads == s.cleanReads)
  {
  }

  // ------------------------------------------------------------------ rounds as runs hold them

  /** How many wakes there were from event i on, up to event j. */
  function WakesIn(es: seq<Event>, i: nat, j: nat): nat
    requires i <= j <= |es|
  {
    if i == j then 0 else WakesIn(es, i, j - 1) + (if es[j - 1].Wake? then 1 else 0)
  }

  /** All of them went well. */
  predicate AllWell(es: seq<Event>, i: nat, j: nat)
    requires i <= j <= |es|
  {
    forall n :: i <= n < j && es[n].Wake? ==> es[n].ok
  }

  predicate NotRestarted(es: seq<Event>, i: nat, j: nat)
    requires i <= j <= |es|
  {
    forall n :: i <= n < j ==> !es[n].StartRound?
  }

  /** The round of `s` after some of its wakes: the same lease, so many wakes nearer the end. */
  predicate Onward(s: State, t: State, wakes: nat, well: bool)
    requires Bound(s)
  {
    && Bound(t) && t.status == Restoring && t.scope == s.scope && t.baseline == s.baseline && |t.intents| == |s.intents|
    && WakesLeft(t) == WakesLeft(s) - wakes && (t.roundFailed <==> s.roundFailed || !well) && t.cleanReads == s.cleanReads
  }

  function Left(u: World): nat
    requires RoundOn(u)
  {
    WakesLeft(u.active.value)
  }

  predicate UnderWay(u: World, v: World, wakes: nat, well: bool) {
    RoundOn(u) && RoundOn(v) && Onward(u.active.value, v.active.value, wakes, well)
  }

  /** How the round of `u` ended. */
  predicate Closed(u: World, v: World, well: bool) {
    && RoundOn(u) && v.active.Some?
    && var s, t := u.active.value, v.active.value;
       if !s.roundFailed && well then t.status == Restored && t.cleanReads == s.cleanReads + 1
       else t.status == ReconciliationRequired && t.cleanReads == 0
  }

  /** Nothing but a wake moves a round: not a request arriving or getting lost, not an id noted, not an
      undoing write sent. */
  lemma RoundStep(u: World, w: World, e: Event, wakes: nat, well: bool)
    requires UnderWay(u, w, wakes, well) && Enabled(w, e) && !e.StartRound?
    ensures !e.Wake? ==> UnderWay(u, Next(w, e), wakes, well)
    ensures e.Wake? && wakes + 1 < Left(u) ==> UnderWay(u, Next(w, e), wakes + 1, well && e.ok)
    ensures e.Wake? && wakes + 1 == Left(u) ==> Closed(u, Next(w, e), well) && !RoundOn(Next(w, e))
  {
    if e.Wake? { WakeFalls(w.active.value, e.ok, w.clock); }
  }

  lemma RoundNext(w: World, es: seq<Event>, n: nat, u: World, wakes: nat, well: bool)
    requires Legal(w, es) && n < |es| && UnderWay(u, At(w, es, n), wakes, well) && !es[n].StartRound?
    ensures !es[n].Wake? ==> UnderWay(u, At(w, es, n + 1), wakes, well)
    ensures es[n].Wake? && wakes + 1 < Left(u) ==> UnderWay(u, At(w, es, n + 1), wakes + 1, well && es[n].ok)
    ensures es[n].Wake? && wakes + 1 == Left(u) ==> Closed(u, At(w, es, n + 1), well) && !RoundOn(At(w, es, n + 1))
  {
    StepAt(w, es, n);
    RoundStep(u, At(w, es, n), es[n], wakes, well);
  }

  /** Until its last wake the round goes on, whatever else happens in between. */
  lemma {:induction false} RoundUnderWay(w: World, es: seq<Event>, i: nat, j: nat)
    requires Legal(w, es) && i <= j <= |es| && RoundOn(At(w, es, i)) && NotRestarted(es, i, j)
    requires WakesIn(es, i, j) < Left(At(w, es, i))
    ensures UnderWay(At(w, es, i), At(w, es, j), WakesIn(es, i, j), AllWell(es, i, j))
    decreases j
  {
    if i < j {
      RoundUnderWay(w, es, i, j - 1);
      RoundNext(w, es, j - 1, At(w, es, i), WakesIn(es, i, j - 1), AllWell(es, i, j - 1));
    }
  }

  /** The wake that uses up what was left closes the round, and gives the verdict. */
  lemma RoundCloses(w: World, es: seq<Event>, i: nat, j: nat)
    requires Legal(w, es) && i < j <= |es| && RoundOn(At(w, es, i)) && NotRestarted(es, i, j)
    requires es[j - 1].Wake? && WakesIn(es, i, j) == Left(At(w, es, i))
    ensures Closed(At(w, es, i), At(w, es, j), AllWell(es, i, j - 1)) && !RoundOn(At(w, es, j))
  {
    RoundUnderWay(w, es, i, j - 1);
    RoundNext(w, es, j - 1, At(w, es, i), WakesIn(es, i, j - 1), AllWell(es, i, j - 1));
  }

  /** If more wakes than were left have passed, one of them closed the round before. */
  lemma {:induction false} ClosingWake(es: seq<Event>, i: nat, j: nat, left: nat) returns (m: nat)
    requires i <= j <= |es| && 0 < left <= WakesIn(es, i, j)
    ensures i < m <= j && es[m - 1].Wake? && WakesIn(es, i, m) == left
    decreases j
  {
    if WakesIn(es, i, j - 1) < left { m := j; } else { m := ClosingWake(es, i, j - 1, left); }
  }

  /** A round in a run takes exactly the wakes left of it, unless it is started again, and ends with
      the verdict, whatever arrives, gets lost, is noted or sent in between. */
  lemma RoundRuns(w: World, es: seq<Event>, i: nat, j: nat)
    requires Legal(w, es) && i < j <= |es| && NotRestarted(es, i, j)
    requires (forall n :: i <= n < j ==> RoundOn(At(w, es, n))) && !RoundOn(At(w, es, j))
    ensures WakesIn(es, i, j) == Left(At(w, es, i)) && Closed(At(w, es, i), At(w, es, j), AllWell(es, i, j - 1))
  {
    var left := Left(At(w, es, i));
    if WakesIn(es, i, j) < left { RoundUnderWay(w, es, i, j); }
    var m := ClosingWake(es, i, j, left);
    RoundCloses(w, es, i, m);
    assert m == j;
  }

  /** Started in a run, a round takes one wake for each intent, zone and host and one to close it. It
      ends `restored`, with one more clean read, exactly when every wake but the closing one went
      well, and otherwise `reconciliation_required` with none. */
  lemma RoundOutcome(w: World, es: seq<Event>, i: nat, j: nat)
    requires Legal(w, es) && i + 1 < j <= |es| && es[i].StartRound? && NotRestarted(es, i + 1, j)
    requires (forall n :: i < n < j ==> RoundOn(At(w, es, n))) && !RoundOn(At(w, es, j))
    ensures var u, v := At(w, es, i), At(w, es, j);
            && u.active.Some? && Bound(u.active.value) && v.active.Some?
            && WakesIn(es, i + 1, j) == |u.active.value.intents| + |u.active.value.baseline.value| + HOSTS + 1
            && if AllWell(es, i + 1, j - 1) then v.active.value.status == Restored && v.active.value.cleanReads == u.active.value.cleanReads + 1
               else v.active.value.status == ReconciliationRequired && v.active.value.cleanReads == 0
  {
    StepAt(w, es, i);
    RoundStarts(At(w, es, i));
    RoundRuns(w, es, i + 1, j);
  }

  lemma RoundStarts(u: World)
    requires Enabled(u, StartRound)
    ensures var v := Next(u, StartRound);
            && RoundOn(v) && !v.active.value.roundFailed && v.active.value.cleanReads == u.active.value.cleanReads
            && Left(v) == |u.active.value.intents| + |u.active.value.baseline.value| + HOSTS + 1
  {
  }

  // ------------------------------------------------------------------ an undisturbed round

  /** The provider shows intent k undone. */
  ghost predicate Undone(s: State, live: map<ZoneId, Table>, k: nat)
    requires k < |s.intents|
  {
    var i := s.intents[k];
    if i.before.Some? then
      && i.change.zoneId in live && i.before.value.id in live[i.change.zoneId]
      && live[i.change.zoneId][i.before.value.id] == i.before.value.ToRow()
    else !Listed(live, i.change)
  }

  ghost function ListedId(live: map<ZoneId, Table>, c: Change): (id: RouteId)
    requires Listed(live, c)
    ensures id in live[c.zoneId] && live[c.zoneId][id].pattern == c.pattern
  {
    var id :| id in live[c.zoneId] && live[c.zoneId][id].pattern == c.pattern; id
  }

  /** What one wake does when every call succeeds and nothing else reaches the provider. */
  ghost function CalmWake(s: State, live: map<ZoneId, Table>, now: int): (State, map<ZoneId, Table>)
    requires Bound(s) && LiveOk(s, live) && WellBound(s.plan.value, s.baseline.value) && IntentsOk(s)
  {
    if RestoringRoutes(s) then
      var k := s.restoreIndex.value;
      var i := s.intents[k];
      IntentZoneLive(s, live, k);
      var t := live[i.change.zoneId];
      if i.before.Some? then
        (AfterWake(s, true, now), live[i.change.zoneId := t[i.before.value.id := i.before.value.ToRow()]])
      else if Listed(live, i.change) then
        var id := ListedId(live, i.change);
        (AfterWake(s.(intents := s.intents[k := i.(id := Some(id))]), true, now), live[i.change.zoneId := t - {id}])
      else (AfterWake(s, true, now), live)
    else if s.verifyIndex < |s.baseline.value| then
      var zone := s.baseline.value[s.verifyIndex];
      (AfterWake(s, live[zone.id] == TableOf(zone.routes), now), live)
    else (AfterWake(s, true, now), live)
  }

  lemma IntentZoneLive(s: State, live: map<ZoneId, Table>, k: nat)
    requires Bound(s) && LiveOk(s, live) && WellBound(s.plan.value, s.baseline.value) && IntentsOk(s) && k < |s.intents|
    ensures s.intents[k].change.zoneId in live
  {
    var zone := ZoneOfIntent(s, k);
    var a :| 0 <= a < |s.baseline.value| && s.baseline.value[a] == zone;
  }

  /** What every wake of a calm round keeps: all intents beyond the sweep's index are undone. */
  ghost predicate Calm(s: State, live: map<ZoneId, Table>)
    requires Bound(s)
  {
    && WellBound(s.plan.value, s.baseline.value) && IntentsOk(s) && LiveOk(s, live)
    && !s.roundFailed
    && (forall k :: 0 <= k < |s.intents| && !(RestoringRoutes(s) && k <= s.restoreIndex.value) ==> Undone(s, live, k))
  }

  /** With every intent undone, the zone is its baseline. */
  lemma UndoneIsBaseline(s: State, live: map<ZoneId, Table>, a: nat)
    requires Bound(s) && WellBound(s.plan.value, s.baseline.value) && IntentsOk(s) && LiveOk(s, live)
    requires a < |s.baseline.value| && forall k :: 0 <= k < |s.intents| ==> Undone(s, live, k)
    ensures live[s.baseline.value[a].id] == TableOf(s.baseline.value[a].routes)
  {
    var zone := s.baseline.value[a];
    var t := live[zone.id];
    var base := TableOf(zone.routes);
    assert ZoneOk(s, zone, t);
    forall id | id in base ensures t[id] == base[id] {
      forall k | Replaces(s, k, zone.id, id) ensures t[id] == base[id] {
        ReplacedRow(s, zone, k);
        assert Undone(s, live, k);
      }
    }
    forall id | id in t ensures id in base {
      forall k | Creates(s, k, zone.id) ensures t[id] != WorkerRow(s, k) {
        assert Undone(s, live, k);
      }
    }
  }

  lemma CalmWakeFalls(s: State, live: map<ZoneId, Table>, now: int)
    requires Bound(s) && s.status == Restoring && Calm(s, live)
    ensures var (t, live') := CalmWake(s, live, now);
            && Bound(t) && t.baseline == s.baseline && t.plan == s.plan
            && (t.status == Restoring <==> WakesLeft(s) > 1)
            && (WakesLeft(s) > 1 ==> WakesLeft(t) == WakesLeft(s) - 1 && t.cleanReads == s.cleanReads)
            && (WakesLeft(s) == 1 ==> t.status == Restored && t.cleanReads == s.cleanReads + 1 && live' == live)
  {
    if RestoringRoutes(s) {
      IntentZoneLive(s, live, s.restoreIndex.value);
    } else if s.verifyIndex < |s.baseline.value| {
      UndoneIsBaseline(s, live, s.verifyIndex);
    }
  }

  lemma CalmWakeKeepsCalm(s: State, live: map<ZoneId, Table>, now: int)
    requires Bound(s) && s.status == Restoring && Calm(s, live)
    ensures var (t, live') := CalmWake(s, live, now); Bound(t) && Calm(t, live')
  {
    if RestoringRoutes(s) {
      CalmSweep(s, live, now);
    } else {
      var (t, live') := CalmWake(s, live, now);
      if s.verifyIndex < |s.baseline.value| { UndoneIsBaseline(s, live, s.verifyIndex); }
      SameIdsKeepIntents(s, t);
      ExtendsKeepsZones(s, t, live);
      forall k | 0 <= k < |t.intents| ensures Undone(t, live', k) { assert Undone(s, live, k); }
    }
  }

  lemma CalmSweep(s: State, live: map<ZoneId, Table>, now: int)
    requires Bound(s) && s.status == Restoring && Calm(s, live) && RestoringRoutes(s)
    ensures var (t, live') := CalmWake(s, live, now); Bound(t) && Calm(t, live')
  {
    var k := s.restoreIndex.value;
    var (t, live') := CalmWake(s, live, now);
    var zone := ZoneOfIntent(s, k);
    IntentZoneLive(s, live, k);
    SweptIntents(s, live, now);
    SweptZones(s, live, now, zone);
    ExtendsKeepsZones(s, t, live');
    forall m | k <= m < |t.intents| ensures Undone(t, live', m) {
      SweptUndone(s, live, now, zone, m);
    }
  }

  lemma SweptIntents(s: State, live: map<ZoneId, Table>, now: int)
    requires Bound(s) && LiveOk(s, live) && WellBound(s.plan.value, s.baseline.value) && IntentsOk(s) && RestoringRoutes(s)
    ensures var t := CalmWake(s, live, now).0; Extends(s, t) && IntentsOk(t)
  {
    var k := s.restoreIndex.value;
    var i := s.intents[k];
    IntentZoneLive(s, live, k);
    if i.before.None? && Listed(live, i.change) {
      var id := ListedId(live, i.change);
      var u := s.(intents := s.intents[k := i.(id := Some(id))]);
      ListedIsAdded(s, live, k, id);
      IdEditKeepsIntents(s, u, k, id);
      SameIdsKeepIntents(u, AfterWake(u, true, now));
    } else {
      SameIdsKeepIntents(s, AfterWake(s, true, now));
    }
  }

  /** A listed route with an added pattern is no baseline route. */
  lemma ListedIsAdded(s: State, live: map<ZoneId, Table>, k: nat, id: RouteId)
    requires Bound(s) && LiveOk(s, live) && WellBound(s.plan.value, s.baseline.value) && IntentsOk(s)
    requires k < |s.intents| && s.intents[k].before.None? && s.intents[k].change.zoneId in live
    requires id in live[s.intents[k].change.zoneId] && live[s.intents[k].change.zoneId][id].pattern == s.intents[k].change.pattern
    ensures !BaseId(s, id) && live[s.intents[k].change.zoneId][id] == WorkerRow(s, k)
  {
    var zone := ZoneOfIntent(s, k);
    var a :| 0 <= a < |s.baseline.value| && s.baseline.value[a] == zone;
    var t := live[zone.id];
    assert ZoneOk(s, zone, t);
    ReplacedRow(s, zone, k);
    if id in TableOf(zone.routes) {
      BaseRowPattern(zone.routes, id);
      forall m | Replaces(s, m, zone.id, id) ensures t[id] != WorkerRow(s, m) {
        ReplacedRow(s, zone, m);
      }
    }
    forall m: nat | Creates(s, m, zone.id) && m != k ensures t[id] != WorkerRow(s, m) {
      DifferentKeys(s, k, m);
    }
  }

  lemma BaseRowPattern(rows: seq<Route>, id: RouteId)
    requires Distinct(rows) && id in TableOf(rows)
    ensures exists r :: r in rows && r.pattern == TableOf(rows)[id].pattern
  {
    TableHolds(rows);
    var m :| 0 <= m < |rows| && rows[m].id == id;
    assert rows[m] in rows;
  }

  lemma SweptZones(s: State, live: map<ZoneId, Table>, now: int, zone: Zone)
    requires Bound(s) && Calm(s, live) && RestoringRoutes(s)
    requires zone in s.baseline.value && zone.id == s.intents[s.restoreIndex.value].change.zoneId
    ensures LiveOk(s, CalmWake(s, live, now).1)
  {
    var k := s.restoreIndex.value;
    var i := s.intents[k];
    var live' := CalmWake(s, live, now).1;
    IntentZoneLive(s, live, k);
    ReplacedRow(s, zone, k);
    forall a | 0 <= a < |s.baseline.value|
      ensures s.baseline.value[a].id in live' && ZoneOk(s, s.baseline.value[a], live'[s.baseline.value[a].id])
    {
      var z := s.baseline.value[a];
      assert ZoneOk(s, z, live[z.id]);
      if z.id == zone.id {
        ZoneFound(s.baseline.value, z);
        SweptZone(s, live, now, z);
      }
    }
  }

  lemma SweptZone(s: State, live: map<ZoneId, Table>, now: int, zone: Zone)
    requires Bound(s) && Calm(s, live) && RestoringRoutes(s)
    requires zone in s.baseline.value && zone.id == s.intents[s.restoreIndex.value].change.zoneId && zone.id in live
    requires ZoneOk(s, zone, live[zone.id])
    ensures ZoneOk(s, zone, CalmWake(s, live, now).1[zone.id])
  {
    var k := s.restoreIndex.value;
    var i := s.intents[k];
    var t := live[zone.id];
    ReplacedRow(s, zone, k);
    if i.before.Some? {
      var row := i.before.value.ToRow();
      assert t[i.before.value.id].pattern == row.pattern by {
        forall m | Replaces(s, m, zone.id, i.before.value.id) ensures WorkerRow(s, m).pattern == row.pattern { ReplacedRow(s, zone, m); }
      }
      UpdateKeepsZone(s, zone, t, i.before.value.id, row);
    } else if Listed(live, i.change) {
      var id := ListedId(live, i.change);
      ListedIsAdded(s, live, k, id);
      BaseIdOfZone(s, zone, id);
    }
  }

  lemma SweptUndone(s: State, live: map<ZoneId, Table>, now: int, zone: Zone, m: nat)
    requires Bound(s) && Calm(s, live) && RestoringRoutes(s)
    requires zone in s.baseline.value && zone.id == s.intents[s.restoreIndex.value].change.zoneId
    requires s.restoreIndex.value <= m < |s.intents|
    ensures var (t, live') := CalmWake(s, live, now); |t.intents| == |s.intents| && Undone(t, live', m)
  {
    var k := s.restoreIndex.value;
    var i := s.intents[k];
    var t := live[zone.id];
    IntentZoneLive(s, live, k);
    ReplacedRow(s, zone, k);
    if m > k { assert Undone(s, live, m); }
    if m > k && s.intents[m].change.zoneId == zone.id {
      if i.before.Some? {
        if s.intents[m].before.Some? { BeforeInjective(s, k, m); }
        else { ReplacedRow(s, zone, m); }
      } else if Listed(live, i.change) && s.intents[m].before.Some? {
        ListedIsAdded(s, live, k, ListedId(live, i.change));
        BeforeIsBaseId(s, m);
      }
    } else if m == k && i.before.None? && Listed(live, i.change) {
      var a :| 0 <= a < |s.baseline.value| && s.baseline.value[a] == zone;
      assert UniquePatterns(t);
    }
  }

  ghost function CalmWakes(s: State, live: map<ZoneId, Table>, nows: seq<int>): (State, map<ZoneId, Table>)
    requires Bound(s) && Calm(s, live) && (nows != [] ==> s.status == Restoring && |nows| <= WakesLeft(s))
    decreases |nows|
  {
    if nows == [] then (s, live)
    else
      CalmWakeFalls(s, live, nows[0]);
      CalmWakeKeepsCalm(s, live, nows[0]);
      var (t, live') := CalmWake(s, live, nows[0]);
      CalmWakes(t, live', nows[1..])
  }

  /** A round with no failed call, no failed probe and no late write ends `restored`, and every
      zone is back to its baseline. */
  lemma {:induction false} CalmRoundRestores(s: State, live: map<ZoneId, Table>, nows: seq<int>)
    requires Bound(s) && s.status == Restoring && Calm(s, live) && |nows| == WakesLeft(s)
    ensures var (t, live') := CalmWakes(s, live, nows);
            && t.status == Restored && t.cleanReads == s.cleanReads + 1
            && ShowsBaseline(s.baseline.value, live')
    decreases |nows|
  {
    CalmWakeFalls(s, live, nows[0]);
    CalmWakeKeepsCalm(s, live, nows[0]);
    var (t, live') := CalmWake(s, live, nows[0]);
    if |nows| > 1 {
      CalmRoundRestores(t, live', nows[1..]);
    } else {
      assert CalmWakes(t, live', nows[1..]) == (t, live');
      forall a | 0 <= a < |s.baseline.value| ensures live'[s.baseline.value[a].id] == TableOf(s.baseline.value[a].routes) {
        UndoneIsBaseline(s, live, a);
      }
    }
  }

  /** Every round starts calm: its sweep has all intents still to visit. */
  lemma RoundStartsCalm(w: World, s: State)
    requires Inv(w) && w.active == Some(s) && Bound(s)
    ensures Calm(StartedRound(s), w.live)
  {
    var t := StartedRound(s);
    assert BoundOk(w, s);
    SameIdsKeepIntents(s, t);
    ExtendsKeepsZones(s, t, w.live);
  }
}
