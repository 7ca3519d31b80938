/** The watchdog itself: its request handlers and its alarm, written as they run. Each handler
    appends what it did to `log`; `Valid` says the log is a run of the protocol whose last
    reservation was careful, so everything proved of such runs holds wherever a handler stops. */
module Watchdog {
  import opened Options
  import opened Routes
  import opened WatchdogProtocol
  import opened WatchdogSafety
  import opened WatchdogRuns
  import opened WatchdogRounds
  import opened WatchdogLog

  class RouteWatchdog {
    /** What `Date.now()` answers. It moves while a handler waits for the network. */
    var clock: int

    // durable storage
    var active: Option<State>
    var history: map<OpId, State>
    var alarm: Option<int>

    // the provider, reached only through ReadRoutes, SendForward and SendUndo
    var live: map<ZoneId, Table>
    var flying: multiset<Flight>
    var issued: nat

    ghost var sent: map<Key, int>
    ghost var lastUndo: Option<int>
    ghost var readBack: bool
    ghost var origin: World
    ghost var log: seq<Event>
    /** During the handler at work, a call failed or a request from earlier arrived or got lost. */
    ghost var disturbed: bool

    ghost function Now(): World
      reads this
    {
      World(clock, active, history, alarm, live, flying, issued, sent, lastUndo, readBack)
    }

    ghost predicate Valid()
      reads this
    {
      CarefulTo(origin, log, Now())
    }

    /** An open lease has its next wake stored. Every handler that runs to its end keeps this. */
    ghost predicate Guarded()
      reads this
    {
      active.Some? && !Finished(active.value) ==> alarm.Some?
    }

    /** What may happen outside while the watchdog waits: time passes, and requests of its own still in
        the network arrive or get lost. Nothing else writes routes. */
    twostate predicate Weathered()
      reads this
    {
      && old(log) <= log && old(clock) <= clock && flying <= old(flying) && (old(disturbed) ==> disturbed)
      && (!disturbed || old(flying) == multiset{} ==> live == old(live) && flying == old(flying) && issued == old(issued))
      && StaySecured(old(Now()), Now()) && StayBack(old(Now()), Now())
    }

    constructor (tables: map<ZoneId, Table>, count: nat, start: int)
      requires forall z :: z in tables ==> UniquePatterns(tables[z]) && forall id: RouteId :: id in tables[z] ==> id.n < count
      ensures Valid() && Now() == World(start, None, map[], None, tables, multiset{}, count, map[], None, false)
      ensures log == [] && !disturbed
    {
      clock, active, history, alarm := start, None, map[], None;
      live, flying, issued := tables, multiset{}, count;
      sent, lastUndo, readBack, log, disturbed := map[], None, false, [], false;
      origin := World(start, None, map[], None, tables, multiset{}, count, map[], None, false);
      new;
      EmptyRun(origin);
    }

    // ---------------------------------------------------------------- storage

    ghost method Happen(e: Event, w: World)
      requires RunsTo(origin, log, w) && Enabled(w, e) && Next(w, e) == Now()
      modifies `log
      ensures RunsTo(origin, log, Now()) && log == old(log) + [e]
      ensures (if e.Reserve? then Rested(w) else old(Careful(origin, log))) ==> Valid()
    {
      if if e.Reserve? then Rested(w) else Careful(origin, log) { StaysCareful(origin, log, w, e); }
      RunsOn(origin, log, w, e);
      log := log + [e];
    }

    method Save(s: State, ghost e: Event)
      requires Valid() && Enabled(Now(), e) && Next(Now(), e) == Now().(active := Some(s), readBack := Next(Now(), e).readBack) && !e.Reserve?
      modifies `active, `readBack, `log
      ensures Valid() && active == Some(s) && log == old(log) + [e]
    {
      ghost var w := Now();
      active := Some(s);
      readBack := Next(w, e).readBack;
      Happen(e, w);
    }

    method SetAlarmAt(at: int)
      requires RunsTo(origin, log, Now())
      modifies `alarm, `log
      ensures RunsTo(origin, log, Now()) && (old(Valid()) ==> Valid())
      ensures alarm == Some(at) && log == old(log) + [SetAlarm(at)]
    {
      ghost var w := Now();
      alarm := Some(at);
      Happen(SetAlarm(at), w);
    }

    method DropAlarm()
      requires Valid() && (active.None? || Finished(active.value))
      modifies `alarm, `log
      ensures Valid() && alarm.None? && log == old(log) + [ClearAlarm]
    {
      ghost var w := Now();
      alarm := None;
      Happen(ClearAlarm, w);
    }

    // ---------------------------------------------------------------- network

    /** Time passes, and requests from earlier arrive or get lost, any number of them. */
    method Interfere()
      requires Valid()
      modifies `clock, `live, `flying, `issued, `log, `disturbed
      ensures Valid() && Weathered()
    {
      var rounds: nat := *;
      while rounds > 0
        invariant Valid() && Weathered()
      {
        var f: Flight, arrives: bool, to: int := *, *, *;
        if f in flying {
          LeaveNetwork(f, arrives);
        } else if clock <= to && AliveAt(flying, to) {
          PassTime(to);
        }
        rounds := rounds - 1;
      }
    }

    /** No request outlives its time: the clock moves on only with every older request gone. */
    method PassTime(to: int)
      requires Valid() && clock <= to && AliveAt(flying, to)
      modifies `clock, `log
      ensures Valid() && clock == to && log == old(log) + [Tick(to)]
    {
      ghost var w := Now();
      clock := to;
      Happen(Tick(to), w);
    }

    method LeaveNetwork(f: Flight, arrives: bool)
      requires Valid() && f in flying
      modifies `live, `flying, `issued, `log, `disturbed
      ensures Valid() && disturbed && old(log) <= log && flying <= old(flying)
      ensures StaySecured(old(Now()), Now()) && StayBack(old(Now()), Now())
    {
      ghost var w, before := Now(), log;
      disturbed := true;
      if arrives { Arrive(f); } else { GetLost(f); }
      SecuredStays(origin, before, w, Now(), f);
      BackStays(origin, before, w, Now(), f);
    }

    method Arrive(f: Flight)
      requires Valid() && f in flying
      modifies `live, `flying, `issued, `log
      ensures Valid() && log == old(log) + [Land(f)]
      ensures live == Landed(old(live), f.req, RouteId(old(issued))) && flying == old(flying) - multiset{f} && issued == old(issued) + 1
    {
      ghost var w := Now();
      live := Landed(live, f.req, RouteId(issued));
      flying := flying - multiset{f};
      issued := issued + 1;
      Happen(Land(f), w);
    }

    method GetLost(f: Flight)
      requires Valid() && f in flying
      modifies `flying, `log
      ensures Valid() && log == old(log) + [Vanish(f)] && flying == old(flying) - multiset{f}
    {
      ghost var w := Now();
      flying := flying - multiset{f};
      Happen(Vanish(f), w);
    }

    /** Lists one zone, in the provider's order. None when the call fails or its answer is not a
        listing without repeated ids and patterns. */
    method ReadRoutes(zone: ZoneId) returns (rows: Option<seq<Route>>)
      requires Valid()
      modifies `clock, `live, `flying, `issued, `log, `disturbed
      ensures Valid() && Weathered()
      ensures rows.Some? ==> zone in live && Distinct(rows.value) && TableOf(rows.value) == live[zone]
      ensures rows.None? ==> disturbed
    {
      Interfere();
      var answer: seq<Route> := *;
      if zone in live && Distinct(answer) && TableOf(answer) == live[zone] {
        rows := Some(answer);
      } else {
        disturbed := true;
        rows := None;
      }
    }

    method Dispatch(s: State)
      requires Valid() && active == Some(s) && Bound(s) && s.status == Armed && JustSaved(s)
      requires KeyOf(s, s.intents[|s.intents| - 1].change) !in sent
      modifies `flying, `sent, `log
      ensures Valid() && log == old(log) + [Event.SendForward]
      ensures sent == old(sent)[KeyOf(s, s.intents[|s.intents| - 1].change) := clock]
    {
      ghost var w := Now();
      sent := sent[KeyOf(s, s.intents[|s.intents| - 1].change) := clock];
      flying := flying + multiset{Flight(Forward(s, |s.intents| - 1), clock)};
      Happen(Event.SendForward, w);
    }

    /** Sends the write of the intent just saved and waits for the answer. Some(id): the provider
        applied it under `id`. None: refused, failed or unanswered, and the request may be anywhere. */
    method SendForward(s: State) returns (id: Option<RouteId>)
      requires Valid() && active == Some(s) && Bound(s) && s.status == Armed && JustSaved(s)
      requires KeyOf(s, s.intents[|s.intents| - 1].change) !in sent
      modifies `clock, `live, `flying, `issued, `sent, `log, `disturbed
      ensures Valid() && old(log) + [Event.SendForward] <= log && old(clock) <= clock
      ensures sent == old(sent)[KeyOf(s, s.intents[|s.intents| - 1].change) := old(clock)]
      ensures id.Some? ==> SecuredIn(Now(), |s.intents| - 1, id.value)
      ensures (id.None? ==> disturbed) && (old(disturbed) ==> disturbed)
    {
      var f := Flight(Forward(s, |s.intents| - 1), clock);
      Dispatch(s);
      assert Carries(Now(), s, f, |s.intents| - 1);
      id := AwaitAnswer(s, |s.intents| - 1, f);
    }

    method AwaitAnswer(s: State, k: nat, f: Flight) returns (id: Option<RouteId>)
      requires Valid() && active == Some(s) && Bound(s) && s.status == Armed && k < |s.intents| && Carries(Now(), s, f, k)
      modifies `clock, `live, `flying, `issued, `log, `disturbed
      ensures Valid() && old(log) <= log && old(clock) <= clock
      ensures id.Some? ==> SecuredIn(Now(), k, id.value)
      ensures (id.None? ==> disturbed) && (old(disturbed) ==> disturbed)
    {
      Interfere();
      var answered: bool := *;
      if answered && f in flying {
        id := Answer(s, k, f);
      } else {
        id := None;
        disturbed := true;
      }
      Interfere();
    }

    /** The provider handles the forward write of intent k and its answer arrives. */
    method Answer(s: State, k: nat, f: Flight) returns (id: Option<RouteId>)
      requires Valid() && active == Some(s) && Bound(s) && s.status == Armed && k < |s.intents|
      requires f in flying && Carries(Now(), s, f, k)
      modifies `live, `flying, `issued, `log
      ensures Valid() && old(log) <= log
      ensures id.Some? && SecuredIn(Now(), k, id.value)
    {
      ghost var w, before := Now(), log;
      ForwardTakesEffect(origin, log, w, s, k);
      var at := if s.intents[k].before.Some? then s.intents[k].before.value.id else RouteId(issued);
      Arrive(f);
      id := if ListsRow(live, s.intents[k].change.zoneId, at, WorkerRow(s, k)) then Some(at) else None;
      OwnLanding(origin, before, w, Now(), s, k, at);
    }

    /** Compares one zone's live listing with the rows wanted. */
    method Shows(zone: ZoneId, wanted: seq<Route>) returns (same: bool)
      requires Valid()
      modifies `clock, `live, `flying, `issued, `log, `disturbed
      ensures Valid() && Weathered()
      ensures same ==> Distinct(wanted) && zone in live && live[zone] == TableOf(wanted)
      ensures !same && Distinct(wanted) && !disturbed ==> zone in live && live[zone] != TableOf(wanted)
    {
      var rows := ReadRoutes(zone);
      if rows.None? { return false; }
      same := SameRows(rows.value, wanted);
      if same { SameRowsDistinct(rows.value, wanted); }
      if Distinct(wanted) { SameRowsIffSameTable(rows.value, wanted); }
    }

    /** Compares every zone, one listing at a time, with nothing of the lease left in the network. */
    method AllShow(zones: seq<Zone>) returns (same: bool)
      requires Valid() && flying == multiset{}
      modifies `clock, `live, `flying, `issued, `log, `disturbed
      ensures Valid() && old(log) <= log && live == old(live) && flying == multiset{}
      ensures same ==> ShowsBaseline(zones, live) && DistinctRows(zones)
      ensures !same && !disturbed && DistinctRows(zones) ==> !ShowsBaseline(zones, live)
      ensures old(disturbed) ==> disturbed
    {
      for i := 0 to |zones|
        invariant Valid() && old(log) <= log && live == old(live) && flying == multiset{}
        invariant forall a :: 0 <= a < i ==> zones[a].id in live && live[zones[a].id] == TableOf(zones[a].routes)
        invariant forall a :: 0 <= a < i ==> Distinct(zones[a].routes)
        invariant old(disturbed) ==> disturbed
      {
        same := Shows(zones[i].id, zones[i].routes);
        if !same { return; }
      }
      same := true;
    }

    // ---------------------------------------------------------------- reservation

    /** Reserves the account-wide lease, after any run. Asking again for the lease already held changes
        nothing. A new lease starts a careful run, and finds the network empty, if a request's lifetime
        has passed since the last undo. */
    method Reserve(scope: Scope) returns (ok: bool)
      requires RunsTo(origin, log, Now())
      modifies `active, `history, `alarm, `log
      ensures RunsTo(origin, log, Now()) && old(log) <= log
      ensures !ok ==> Now() == old(Now()) && log == old(log)
      ensures ok ==> active.Some? && active.value.scope == scope
      ensures ok && old(active.Some? && active.value.scope == scope) ==> Now() == old(Now()) && log == old(log)
      ensures ok && !old(active.Some? && active.value.scope == scope) ==>
                && active == Some(NewLease(scope, clock)) && alarm == Some(clock + WINDOW_MS)
                && scope.operationId !in history && old(active.Some? ==> Finished(active.value))
                && history == old(if active.Some? then history[active.value.scope.operationId := active.value] else history)
                && (old(Rested(Now())) ==> Valid() && flying == multiset{})
      ensures old(Guarded()) ==> Guarded()
    {
      if !ScopeOk(scope) { return false; }
      if active.Some? && active.value.scope == scope { return true; }
      if active.Some? && !Finished(active.value) { return false; }
      if active.Some? && active.value.scope.operationId == scope.operationId { return false; }
      if scope.operationId in history { return false; }
      if active.Some? { KeepInHistory(); }
      TakeLease(scope);
      ok := true;
    }

    method TakeLease(scope: Scope)
      requires RunsTo(origin, log, Now()) && Enabled(Now(), Event.Reserve(scope))
      modifies `active, `alarm, `log
      ensures RunsTo(origin, log, Now()) && old(log) <= log
      ensures active == Some(NewLease(scope, clock)) && alarm == Some(clock + WINDOW_MS)
      ensures old(Rested(Now())) ==> Valid() && flying == multiset{}
    {
      ghost var w := Now();
      if Rested(w) { EmptyNow(origin, log, w); }
      active := Some(NewLease(scope, clock));
      Happen(Event.Reserve(scope), w);
      SetAlarmAt(clock + WINDOW_MS);
    }

    method KeepInHistory()
      requires RunsTo(origin, log, Now()) && active.Some? && Finished(active.value)
      modifies `history, `log
      ensures RunsTo(origin, log, Now()) && log == old(log) + [Archive]
      ensures history == old(history)[active.value.scope.operationId := active.value]
    {
      ghost var w := Now();
      history := history[active.value.scope.operationId := active.value];
      Happen(Archive, w);
    }

    predicate Addressed(op: OpId, lease: string)
      reads this
    {
      active.Some? && active.value.scope.operationId == op && active.value.scope.leaseId == lease
    }

    /** Binds a plan and a baseline to the reserved lease, once the provider shows the baseline.
        `approved` stands for the hashes, signatures and report. */
    method Bind(op: OpId, lease: string, plan: Plan, zones: seq<Zone>, approved: bool) returns (ok: bool)
      requires Valid()
      modifies this
      ensures Valid() && old(log) <= log && live == old(live)
      ensures !ok ==> active == old(active) && alarm == old(alarm)
      ensures ok ==> && old(Addressed(op, lease) && active.value.status == Reserved && clock - active.value.reservedAt < BIND_MS)
                     && active == Some(old(active).value.(plan := Some(plan), baseline := Some(zones), status := Armed, deadline := clock + WINDOW_MS))
                     && alarm == Some(clock + WINDOW_MS) && clock + WINDOW_MS + ROLLBACK_MS < active.value.expiresAt
                     && approved && WellBound(plan, zones) && ShowsBaseline(zones, live) && flying == multiset{}
      ensures !ok && !disturbed && old(Addressed(op, lease) && BindChecks(active.value, plan, zones, approved, clock))
              && clock + WINDOW_MS + ROLLBACK_MS < active.value.expiresAt && DistinctRows(zones)
              ==> !ShowsBaseline(zones, live)
      ensures old(Guarded()) ==> Guarded()
    {
      disturbed := false;
      if !Addressed(op, lease) { return false; }
      var s := active.value;
      if !BindChecks(s, plan, zones, approved, clock) { return false; }
      LeaseShape(origin, log, Now(), s);
      ChecksMakeWellBound(s, plan, zones, approved, clock);
      ok := Arm(s, plan, zones);
    }

    method Arm(s: State, plan: Plan, zones: seq<Zone>) returns (ok: bool)
      requires Valid() && active == Some(s) && s.status == Reserved && flying == multiset{}
      requires DistinctRows(zones) ==> WellBound(plan, zones)
      modifies this
      ensures Valid() && old(log) <= log && live == old(live)
      ensures !ok ==> active == old(active) && alarm == old(alarm)
      ensures ok ==> && active == Some(s.(plan := Some(plan), baseline := Some(zones), status := Armed, deadline := clock + WINDOW_MS))
                     && alarm == Some(clock + WINDOW_MS) && clock + WINDOW_MS + ROLLBACK_MS < s.expiresAt
                     && WellBound(plan, zones) && ShowsBaseline(zones, live) && flying == multiset{}
      ensures !ok && !disturbed && clock + WINDOW_MS + ROLLBACK_MS < s.expiresAt && DistinctRows(zones) ==> !ShowsBaseline(zones, live)
    {
      ok := AllShow(zones);
      if !ok || clock + WINDOW_MS + ROLLBACK_MS >= s.expiresAt { return false; }
      Save(s.(plan := Some(plan), baseline := Some(zones), status := Armed, deadline := clock + WINDOW_MS), Event.Bind(plan, zones));
      SetAlarmAt(clock + WINDOW_MS);
    }

    // ---------------------------------------------------------------- forward writes

    /** Sends one planned change forward, at most once ever. Asked again for a change already
        acknowledged, it only reads the route back; asked again for one never acknowledged, it refuses. */
    method Mutate(op: OpId, lease: string, zoneId: ZoneId, pattern: string) returns (answer: Option<Route>)
      requires Valid()
      modifies this
      ensures Valid() && old(log) <= log
      ensures sent == old(sent) || SentNow(old(Now()), Now(), Key(op, zoneId, pattern))
      ensures answer.Some? ==> Granted(Now(), zoneId, pattern, answer.value)
      ensures answer.None? && sent == old(sent) ==> active == old(active) && alarm == old(alarm)
      ensures answer.None? && sent != old(sent) ==> active.Some? && active.value.status == Restoring && alarm == Some(clock + WAKE_MS)
      ensures answer.None? ==> disturbed || !old(Addressed(op, lease) && MayMutate(active.value, zoneId, pattern, clock))
      ensures old(Guarded()) ==> Guarded()
    {
      answer, disturbed := None, false;
      if !Addressed(op, lease) { return; }
      var s := active.value;
      if s.status != Armed || clock >= s.deadline || !Bound(s) { return; }
      var change := FindChange(s.plan.value.routes, zoneId, pattern);
      if change.None? { return; }
      FindChangeHits(s.plan.value.routes, zoneId, pattern);
      FindIntentHits(s.intents, zoneId, pattern);
      var k := FindIntent(s.intents, zoneId, pattern);
      if k.Some? {
        if s.intents[k.value].id.Some? { answer := ReadBack(s, k.value); }
        return;
      }
      answer := FirstTime(s, change.value);
    }

    /** The route an acknowledged intent left behind, if the provider lists it. */
    method ReadBack(s: State, k: nat) returns (answer: Option<Route>)
      requires Valid() && active == Some(s) && Bound(s) && s.status == Armed && k < |s.intents| && s.intents[k].id.Some?
      modifies `clock, `live, `flying, `issued, `log, `disturbed
      ensures Valid() && old(log) <= log && (answer.None? ==> disturbed)
      ensures answer.Some? ==> Granted(Now(), s.intents[k].change.zoneId, s.intents[k].change.pattern, answer.value)
    {
      var rows := ReadRoutes(s.intents[k].change.zoneId);
      if rows.None? { return None; }
      AckedShows(origin, log, Now(), s, k);
      FindRouteInTable(rows.value, s.intents[k].id.value);
      answer := FindRoute(rows.value, s.intents[k].id.value);
      if answer.Some? && (answer.value.pattern != s.intents[k].change.pattern || answer.value.script != Some(s.plan.value.workerName)) {
        return None;
      }
      assert GrantedAs(s, live, k, s.intents[k].change.zoneId, s.intents[k].change.pattern, answer.value);
    }

    /** A change with no intent yet: compare, save the intent, send, save the acknowledgement. */
    method FirstTime(s: State, c: Change) returns (answer: Option<Route>)
      requires Valid() && active == Some(s) && Bound(s) && s.status == Armed && c in s.plan.value.routes && !HasIntent(s, c)
      modifies this
      ensures Valid() && old(log) <= log
      ensures sent == old(sent) || SentNow(old(Now()), Now(), KeyOf(s, c))
      ensures answer.Some? ==> Granted(Now(), c.zoneId, c.pattern, answer.value)
      ensures answer.None? && sent == old(sent) ==> active == old(active) && alarm == old(alarm)
      ensures answer.None? && sent != old(sent) ==> active.Some? && active.value.status == Restoring && alarm == Some(clock + WAKE_MS)
      ensures answer.None? ==> disturbed || !Acked(c.zoneId, s.intents)
      ensures answer.Some? ==> alarm == old(alarm)
    {
      var zone := ZoneOfChange(s, c);
      FreshKey(origin, log, Now(), s, c);
      var expected := ExpectedRows(zone.routes, zone.id, s.intents, s.plan.value.workerName);
      if expected.None? { return None; }
      var same := Shows(c.zoneId, expected.value);
      ZoneAsExpected(origin, log, Now(), s, zone);
      if !same { return None; }
      answer := SendOnce(s, c);
    }

    /** The intent is durable before the write leaves; any doubt about the outcome starts a restore. */
    method SendOnce(s: State, c: Change) returns (answer: Option<Route>)
      requires Valid() && active == Some(s) && Bound(s) && s.status == Armed && c in s.plan.value.routes && !HasIntent(s, c)
      requires KeyOf(s, c) !in sent
      modifies this
      ensures Valid() && old(log) <= log && SentNow(old(Now()), Now(), KeyOf(s, c))
      ensures answer.Some? ==> Granted(Now(), c.zoneId, c.pattern, answer.value)
      ensures answer.None? ==> active.Some? && active.value.status == Restoring && alarm == Some(clock + WAKE_MS) && disturbed
      ensures answer.Some? ==> alarm == old(alarm)
    {
      var t := SaveNewIntent(s, c);
      var id := SendForward(t);
      if id.Some? {
        Acknowledge(t, id.value);
        answer := Some(Route(id.value, c.pattern, Some(s.plan.value.workerName)));
      } else {
        GiveUp(t);
        answer := None;
      }
    }

    method SaveNewIntent(s: State, c: Change) returns (t: State)
      requires Valid() && active == Some(s) && Bound(s) && s.status == Armed && c in s.plan.value.routes && !HasIntent(s, c)
      modifies `active, `readBack, `log
      ensures Valid() && old(log) <= log && active == Some(t)
      ensures t == s.(intents := s.intents + [Intent(c, BeforeOf(s.baseline.value, c), None, false)])
    {
      t := s.(intents := s.intents + [Intent(c, BeforeOf(s.baseline.value, c), None, false)]);
      Save(t, SaveIntent(c));
    }

    method GiveUp(t: State)
      requires Valid() && active == Some(t) && Bound(t) && t.status == Armed
      modifies `active, `readBack, `alarm, `log
      ensures Valid() && old(log) <= log && active.Some? && active.value.status == Restoring && alarm == Some(clock + WAKE_MS)
    {
      Save(t.(status := Restoring), MarkFailed);
      StartRestore();
    }

    method ZoneOfChange(s: State, c: Change) returns (zone: Zone)
      requires Valid() && active == Some(s) && Bound(s) && c in s.plan.value.routes
      ensures zone in s.baseline.value && zone.id == c.zoneId
    {
      BoundNow(origin, log, Now(), s);
      FindZoneHits(s.baseline.value, c.zoneId);
      assert GroundedChange(c, s.baseline.value);
      zone := FindZone(s.baseline.value, c.zoneId).value;
    }

    method Acknowledge(t: State, id: RouteId)
      requires Valid() && active == Some(t) && t.intents != [] && SecuredIn(Now(), |t.intents| - 1, id) && JustSaved(t)
      modifies `active, `readBack, `log
      ensures Valid() && old(log) <= log
      ensures Granted(Now(), t.intents[|t.intents| - 1].change.zoneId, t.intents[|t.intents| - 1].change.pattern,
                      Route(id, t.intents[|t.intents| - 1].change.pattern, Some(t.plan.value.workerName)))
    {
      var k := |t.intents| - 1;
      var u := t.(intents := t.intents[k := t.intents[k].(id := Some(id))]);
      Save(u, Ack(k, id));
      assert RowApplied(u, live, k, id);
      assert GrantedAs(u, live, k, t.intents[k].change.zoneId, t.intents[k].change.pattern, WorkerRoute(u.intents[k], t.plan.value.workerName));
    }

    // ---------------------------------------------------------------- restoring

    /** Starts a restore round over everything intended so far; an unbound lease is simply freed. */
    method StartRestore()
      requires Valid() && active.Some?
      modifies `active, `readBack, `alarm, `log
      ensures Valid() && old(log) <= log
      ensures old(Bound(active.value)) ==> active == Some(StartedRound(old(active).value)) && alarm == Some(clock + WAKE_MS)
      ensures !old(Bound(active.value)) ==> active == Some(old(active).value.(status := Released)) && alarm == old(alarm)
    {
      var s := active.value;
      if s.plan.None? || s.baseline.None? {
        Save(s.(status := Released), FreeUnbound);
        return;
      }
      s := s.(status := Restoring, restoreIndex := Some(|s.intents| - 1));
      s := s.(verifyIndex := 0, originIndex := 0, roundFailed := false);
      Save(s, StartRound);
      SetAlarmAt(clock + WAKE_MS);
    }

    method RestoreRequest(op: OpId, lease: string) returns (ok: bool)
      requires Valid()
      modifies `active, `readBack, `alarm, `log
      ensures Valid() && old(log) <= log && ok == old(Addressed(op, lease))
      ensures !ok || old(active.value.status == Restoring) ==> Now() == old(Now()) && log == old(log)
      ensures ok && old(active.value.status != Restoring && Bound(active.value)) ==>
                active == Some(StartedRound(old(active).value)) && alarm == Some(clock + WAKE_MS)
      ensures ok && old(active.value.status != Restoring && !Bound(active.value)) ==> active == Some(old(active).value.(status := Released))
      ensures old(Guarded()) ==> Guarded()
    {
      ok := Addressed(op, lease);
      if ok && active.value.status != Restoring { StartRestore(); }
    }

    /** Sends one undoing write and waits for the answer. */
    method SendUndo(req: Request) returns (ok: bool)
      requires Valid() && active.Some? && Bound(active.value) && active.value.status == Restoring && Undoes(active.value, req)
      requires Accepts(live, req)
      modifies `clock, `live, `flying, `issued, `lastUndo, `log, `disturbed
      ensures Valid() && old(log) <= log && old(clock) <= clock && (old(disturbed) ==> disturbed) && (ok || disturbed)
      ensures lastUndo == Some(old(clock))
      ensures !disturbed ==> live == Landed(old(live), req, RouteId(old(issued)))
    {
      var f := Flight(req, clock);
      LaunchUndo(f);
      var answered: bool := *;
      if answered && f in flying {
        ok := AnswerUndo(f);
      } else {
        disturbed := true;
        ok := false;
      }
      Interfere();
    }

    method AnswerUndo(f: Flight) returns (ok: bool)
      requires Valid() && f in flying
      modifies `live, `flying, `issued, `log
      ensures Valid() && old(log) <= log && ok == Accepts(old(live), f.req) && live == Landed(old(live), f.req, RouteId(old(issued)))
    {
      ok := Accepts(live, f.req);
      Arrive(f);
    }

    method LaunchUndo(f: Flight)
      requires Valid() && active.Some? && Bound(active.value) && active.value.status == Restoring
      requires Undoes(active.value, f.req) && f.at == clock
      modifies `clock, `live, `flying, `issued, `lastUndo, `log, `disturbed
      ensures Valid() && old(log) <= log && old(clock) <= clock && (old(disturbed) ==> disturbed) && lastUndo == Some(old(clock))
      ensures !disturbed ==> live == old(live) && issued == old(issued) && f in flying
    {
      ghost var w := Now();
      flying := flying + multiset{f};
      lastUndo := Some(clock);
      Happen(SendRestore(f.req), w);
      Interfere();
    }

    /** Puts the route intent k replaced back as the baseline has it. */
    method UndoReplaced(s: State, k: nat) returns (ok: bool)
      requires Valid() && active == Some(s) && Bound(s) && s.status == Restoring && k < |s.intents| && s.intents[k].before.Some?
      modifies `clock, `live, `flying, `issued, `lastUndo, `log, `disturbed
      ensures Valid() && old(log) <= log && (old(disturbed) ==> disturbed) && (ok || disturbed)
      ensures !disturbed ==> var z, b := s.intents[k].change.zoneId, s.intents[k].before.value;
                             z in old(live) && live == old(live)[z := old(live)[z][b.id := b.ToRow()]]
    {
      var i := s.intents[k];
      var rows := ReadRoutes(i.change.zoneId);
      if rows.None? { return false; }
      var actual := FindRoute(rows.value, i.before.value.id);
      ReplacedListed(origin, log, Now(), s, k, rows.value);
      if actual.None? { return false; }
      if actual == i.before { return true; }
      if actual.value.pattern != i.change.pattern || actual.value.script != Some(s.plan.value.workerName) { return false; }
      assert Replaces(s, k, i.change.zoneId, actual.value.id);
      ok := SendUndo(Put(i.change.zoneId, actual.value.id, i.before.value.ToRow()));
    }

    /** Deletes the route intent k added, if it is listed, noting its id first. */
    method UndoAdded(s: State, k: nat) returns (ok: bool, t: State)
      requires Valid() && active == Some(s) && Bound(s) && s.status == Restoring && k < |s.intents| && s.intents[k].before.None?
      modifies `clock, `active, `readBack, `live, `flying, `issued, `lastUndo, `log, `disturbed
      ensures Valid() && old(log) <= log && (old(disturbed) ==> disturbed) && (ok || disturbed)
      ensures active == Some(t) && (t == s || exists id :: t == Noted(s, k, id))
      ensures !disturbed && !Listed(old(live), s.intents[k].change) ==> t == s && live == old(live)
      ensures !disturbed && Listed(old(live), s.intents[k].change) ==>
                var z, id := s.intents[k].change.zoneId, ListedId(old(live), s.intents[k].change);
                t == Noted(s, k, id) && live == old(live)[z := old(live)[z] - {id}]
    {
      var i := s.intents[k];
      t := s;
      var rows := ReadRoutes(i.change.zoneId);
      if rows.None? { return false, s; }
      var actual := FindPattern(rows.value, i.change.pattern);
      AddedListed(origin, log, Now(), s, k, rows.value);
      if actual.None? { return true, s; }
      if actual.value.script != Some(s.plan.value.workerName) || (i.id.Some? && i.id.value != actual.value.id)
         || IsBaseRoute(s.baseline.value, actual.value.id) {
        return false, s;
      }
      ok, t := DeleteAdded(s, k, actual.value.id);
    }

    method DeleteAdded(s: State, k: nat, id: RouteId) returns (ok: bool, t: State)
      requires Valid() && active == Some(s) && Bound(s) && s.status == Restoring && k < |s.intents| && s.intents[k].before.None?
      requires RowApplied(s, live, k, id)
      modifies `clock, `active, `readBack, `live, `flying, `issued, `lastUndo, `log, `disturbed
      ensures Valid() && old(log) <= log && (old(disturbed) ==> disturbed) && (ok || disturbed)
      ensures t == Noted(s, k, id) && active == Some(t)
      ensures !disturbed ==> var z := s.intents[k].change.zoneId; live == old(live)[z := old(live)[z] - {id}]
    {
      t := Noted(s, k, id);
      Save(t, NoteId(k, id));
      assert Creates(t, k, s.intents[k].change.zoneId);
      ok := SendUndo(Delete(s.intents[k].change.zoneId, id));
    }

    method Sweep(s: State) returns (ok: bool, t: State)
      requires Valid() && active == Some(s) && Bound(s) && s.status == Restoring && RestoringRoutes(s)
      modifies `clock, `active, `readBack, `live, `flying, `issued, `lastUndo, `log, `disturbed
      ensures Valid() && old(log) <= log && (old(disturbed) ==> disturbed) && (ok || disturbed)
      ensures active == Some(t) && (t == s || exists id :: t == Noted(s, s.restoreIndex.value, id))
      ensures !disturbed && Calm(s, old(live)) ==> forall now :: (AfterWake(t, ok, now), live) == CalmWake(s, old(live), now)
    {
      var k := s.restoreIndex.value;
      if s.intents[k].before.Some? {
        ok := UndoReplaced(s, k);
        t := s;
      } else {
        ok, t := UndoAdded(s, k);
      }
    }

    /** One restoring wake: one route put back, or one zone compared, or one origin probed, or the
        verdict on the round. `probe` is the outcome of the origin probe. */
    method RestoreStep(probe: bool) returns (ok: bool)
      requires Valid() && active.Some? && Bound(active.value) && active.value.status == Restoring
      modifies this
      ensures Valid() && old(log) <= log
      ensures active.Some? && WakeOf(old(active).value, active.value, ok, clock)
      ensures alarm.Some? && clock < alarm.value <= clock + RETRY_MS
      ensures old(VerifyingZones(active.value)) && ok ==>
                var z := old(active).value.baseline.value[old(active).value.verifyIndex];
                z.id in live && live[z.id] == TableOf(z.routes)
      ensures old(ProbingHosts(active.value)) ==> ok == probe
      ensures !disturbed && (old(ProbingHosts(active.value)) ==> probe) && old(Calm(active.value, live)) ==>
                (active.value, live) == CalmWake(old(active).value, old(live), clock)
      ensures old(Guarded()) ==> Guarded()
    {
      disturbed := false;
      var s := active.value;
      if RestoringRoutes(s) {
        ok := SweepStep(s);
      } else if s.verifyIndex < |s.baseline.value| {
        ok := VerifyStep(s);
      } else if s.originIndex < HOSTS {
        ok := probe;
        ProbeStep(s, probe);
      } else {
        ok := !s.roundFailed;
        Conclude(s);
      }
    }

    /** Saves what the wake found and stores the next one. */
    method EndWake(s: State, t: State, ok: bool)
      requires Valid() && active == Some(s) && Bound(s) && s.status == Restoring && t == AfterWake(s, ok, clock)
      requires ok && VerifyingZones(s) ==> readBack
      modifies `active, `readBack, `alarm, `log
      ensures Valid() && old(log) <= log && active == Some(t) && alarm == Some(clock + WAKE_MS)
    {
      Save(t, Wake(ok));
      SetAlarmAt(clock + WAKE_MS);
    }

    method SweepStep(s: State) returns (ok: bool)
      requires Valid() && active == Some(s) && Bound(s) && s.status == Restoring && RestoringRoutes(s)
      modifies this
      ensures Valid() && old(log) <= log && active.Some? && WakeOf(s, active.value, ok, clock) && alarm == Some(clock + WAKE_MS)
      ensures (old(disturbed) ==> disturbed) && (ok || disturbed)
      ensures !disturbed && Calm(s, old(live)) ==> (active.value, live) == CalmWake(s, old(live), clock)
    {
      var k := s.restoreIndex.value;
      var t;
      ok, t := Sweep(s);
      var intents := if ok then t.intents[k := t.intents[k].(restored := true)] else t.intents;
      EndWake(t, t.(intents := intents, roundFailed := t.roundFailed || !ok, restoreIndex := Some(k - 1)), ok);
    }

    method VerifyStep(s: State) returns (ok: bool)
      requires Valid() && active == Some(s) && Bound(s) && s.status == Restoring && VerifyingZones(s)
      modifies this
      ensures Valid() && old(log) <= log && active == Some(AfterWake(s, ok, clock)) && alarm == Some(clock + WAKE_MS)
      ensures old(disturbed) ==> disturbed
      ensures var z := s.baseline.value[s.verifyIndex];
              && (ok ==> z.id in live && live[z.id] == TableOf(z.routes))
              && (!disturbed && !ok ==> z.id in live && live[z.id] != TableOf(z.routes))
      ensures !disturbed ==> live == old(live)
    {
      BoundNow(origin, log, Now(), s);
      var zone := s.baseline.value[s.verifyIndex];
      ok := Shows(zone.id, zone.routes);
      if ok { NoteReadBack(); }
      EndWake(s, s.(roundFailed := s.roundFailed || !ok, verifyIndex := s.verifyIndex + 1), ok);
    }

    /** The zone at hand has just been read back to its baseline. */
    ghost method NoteReadBack()
      requires Valid() && RoundOn(Now()) && VerifyingZones(active.value) && ZoneBack(Now(), active.value.verifyIndex)
      modifies `readBack, `log
      ensures Valid() && readBack && log == old(log) + [Event.ReadBack]
    {
      ghost var w := Now();
      readBack := true;
      Happen(Event.ReadBack, w);
    }

    /** Waits for the origin probe's answer, `probe`. */
    method ProbeStep(s: State, probe: bool)
      requires Valid() && active == Some(s) && Bound(s) && s.status == Restoring && ProbingHosts(s)
      modifies this
      ensures Valid() && old(log) <= log && active == Some(AfterWake(s, probe, clock)) && alarm == Some(clock + WAKE_MS)
      ensures (old(disturbed) ==> disturbed) && (!disturbed ==> live == old(live))
    {
      Interfere();
      EndWake(s, s.(roundFailed := s.roundFailed || !probe, originIndex := s.originIndex + 1), probe);
    }

    /** The round's verdict: restored only if nothing in it failed. */
    method Conclude(s: State)
      requires Valid() && active == Some(s) && Bound(s) && s.status == Restoring && WakesLeft(s) == 1
      modifies `active, `readBack, `alarm, `log
      ensures Valid() && old(log) <= log && active == Some(AfterWake(s, !s.roundFailed, clock))
      ensures active.value.status == if s.roundFailed then ReconciliationRequired else Restored
      ensures alarm == Some(clock + if s.roundFailed then FAILED_MS else RETRY_MS)
    {
      if s.roundFailed {
        Save(s.(status := ReconciliationRequired, cleanReads := 0), Wake(false));
        SetAlarmAt(clock + FAILED_MS);
      } else {
        var since := if s.restoredAt.None? then Some(clock) else s.restoredAt;
        Save(s.(status := Restored, cleanReads := s.cleanReads + 1, restoredAt := since), Wake(true));
        SetAlarmAt(clock + RETRY_MS);
      }
    }

    /** The alarm rings, which uses it up. Whatever becomes of this wake, an open lease has its next one
        stored first. */
    method Alarm(probe: bool)
      requires Valid()
      modifies this
      ensures Valid() && old(log) <= log
      ensures old(active.None? || Finished(active.value)) ==> Now() == old(Now()).(alarm := None)
      ensures old(active.Some? && !Finished(active.value)) ==>
                && alarm.Some? && active.Some?
                && (old(Waiting(active.value, clock)) ==> active == old(active) && alarm.value == active.value.deadline && live == old(live))
                && (old(!Waiting(active.value, clock) && active.value.status != Restoring && Bound(active.value)) ==>
                      active == Some(StartedRound(old(active).value)) && live == old(live))
                && (old(!Waiting(active.value, clock) && !Bound(active.value)) ==>
                      active == Some(old(active).value.(status := Released)) && live == old(live))
                && (old(!Waiting(active.value, clock) && active.value.status == Restoring && Bound(active.value)) ==>
                      (exists ok :: WakeOf(old(active).value, active.value, ok, clock))
                      && (!disturbed && (old(ProbingHosts(active.value)) ==> probe) && old(Calm(active.value, live)) ==>
                            (active.value, live) == CalmWake(old(active).value, old(live), clock)))
      ensures old(Guarded()) ==> Guarded()
    {
      if active.None? || Finished(active.value) {
        DropAlarm();
        return;
      }
      LeaseShape(origin, log, Now(), active.value);
      SetAlarmAt(clock + RETRY_MS);
      if Waiting(active.value, clock) {
        SetAlarmAt(active.value.deadline);
        return;
      }
      if active.value.status != Restoring {
        StartRestore();
      } else {
        var ok := RestoreStep(probe);
      }
    }

    /** The runtime rings the alarm until the round is over. It is over after as many wakes as were left
        of it; a calm round, with the origins answering, ends `restored` on the baseline. */
    method RingThrough(probe: bool) returns (wakes: nat, ghost calm: bool)
      requires Valid() && RoundOn(Now())
      modifies this
      ensures Valid() && old(log) <= log && active.Some? && Bound(active.value) && wakes == old(WakesLeft(active.value))
      ensures active.value.status == Restored || active.value.status == ReconciliationRequired
      ensures calm && probe && old(Calm(active.value, live)) ==>
                && active.value.status == Restored && active.value.cleanReads == old(active.value.cleanReads) + 1
                && active.value.baseline == old(active.value.baseline) && ShowsBaseline(active.value.baseline.value, live)
    {
      wakes, calm := 0, true;
      ghost var s0, live0 := active.value, live;
      while active.Some? && Bound(active.value) && active.value.status == Restoring
        invariant Valid() && old(log) <= log && active.Some? && Bound(active.value)
        invariant if RoundOn(Now()) then wakes + WakesLeft(active.value) == WakesLeft(s0) else wakes == WakesLeft(s0)
        invariant RoundOn(Now()) || active.value.status == Restored || active.value.status == ReconciliationRequired
        invariant calm && probe && Calm(s0, live0) ==> RoundKept(s0, active.value, live)
        decreases if RoundOn(Now()) then WakesLeft(active.value) else 0
      {
        disturbed := false;
        Interfere();
        calm := calm && !disturbed;
        ghost var s, before := active.value, live;
        Alarm(probe);
        calm := calm && !disturbed;
        ghost var ok :| WakeOf(s, active.value, ok, clock);
        WakeEnds(s, active.value, ok, clock);
        if calm && probe && Calm(s0, live0) { KeptByWake(s0, s, before, active.value, live, clock); }
        wakes := wakes + 1;
      }
    }

    // ---------------------------------------------------------------- letting the lease go

    /** Accepts the cutover once the provider shows the whole plan and nothing else. `valid` stands
        for the signed report and all it is compared with. */
    method Accept(op: OpId, lease: string, report: string, valid: bool) returns (ok: bool)
      requires Valid()
      modifies this
      ensures Valid() && old(log) <= log && live == old(live)
      ensures (!ok ==> active == old(active) && alarm == old(alarm))
      ensures ok ==> old(Addressed(op, lease))
      ensures ok && old(active.value.status == Accepted) ==> active == old(active) && active.value.acceptedReport == Some(report)
      ensures ok && old(active.value.status != Accepted) ==>
                && active == Some(old(active).value.(status := Accepted, acceptedReport := Some(report)))
                && alarm.None? && valid && clock <= active.value.deadline && Bound(active.value) && FullyApplied(active.value, live)
      ensures !ok && !disturbed && old(Addressed(op, lease)) ==> !MayAccept(old(active).value, report, valid, clock)
      ensures old(Guarded()) ==> Guarded()
    {
      disturbed := false;
      if !Addressed(op, lease) { return false; }
      var s := active.value;
      if s.status == Accepted && s.acceptedReport == Some(report) { return true; }
      if s.status != Armed || clock > s.deadline || !Bound(s) || !valid { return false; }
      if |s.intents| != |s.plan.value.routes| || !AllAcked(s) { return false; }
      ok := PlanShows(s);
      if !ok || clock > s.deadline { return false; }
      SetAccepted(s, report);
    }

    method SetAccepted(s: State, report: string)
      requires Valid() && active == Some(s) && s.status == Armed && Bound(s) && clock <= s.deadline && FullyApplied(s, live)
      modifies `active, `readBack, `alarm, `log
      ensures Valid() && old(log) <= log && alarm.None?
      ensures active == Some(s.(status := Accepted, acceptedReport := Some(report)))
    {
      Save(s.(status := Accepted, acceptedReport := Some(report)), Event.Accept(report));
      DropAlarm();
    }

    method PlanShows(s: State) returns (ok: bool)
      requires Valid() && active == Some(s) && Bound(s) && s.status == Armed && AllAcked(s)
      modifies `clock, `live, `flying, `issued, `log, `disturbed
      ensures Valid() && old(log) <= log && live == old(live) && (old(disturbed) ==> disturbed)
      ensures ok ==> ShowsPlan(s, live)
      ensures ok || disturbed
    {
      BoundNow(origin, log, Now(), s);
      var zones := ExpectedZones(s);
      ok := AllShow(zones);
      PlanIsExpected(origin, log, Now(), s, zones);
    }

    /** Frees a bound lease after its fence, with every zone read back to its baseline. No forward write
        of it is left in the network then; undoing writes may be, but they change nothing. */
    method Release(op: OpId, lease: string, approved: bool) returns (ok: bool)
      requires Valid()
      modifies this
      ensures Valid() && old(log) <= log && (!disturbed ==> live == old(live))
      ensures !ok ==> active == old(active) && alarm == old(alarm)
      ensures ok ==> && old(Addressed(op, lease) && Outlasted(active.value, clock)) && approved
                     && active == Some(old(active).value.(status := Released)) && alarm.None?
                     && ShowsBaseline(active.value.baseline.value, live)
                     && (forall f :: f in flying ==> UndoShaped(active.value, f.req) && !CarriesForward(Now(), active.value, f))
                     && (Rested(Now()) ==> flying == multiset{})
      ensures !ok && !disturbed && approved && old(Addressed(op, lease) && Outlasted(active.value, clock)) ==>
                !ShowsBaseline(active.value.baseline.value, live)
      ensures old(Guarded()) ==> Guarded()
    {
      disturbed := false;
      if !Addressed(op, lease) || !Outlasted(active.value, clock) || !approved { return false; }
      var s := active.value;
      ok := AllBack(s);
      if ok { SetFree(s); }
    }

    /** Reads every zone of a fenced lease; what may still arrive meanwhile undoes no zone already read. */
    method AllBack(s: State) returns (same: bool)
      requires Valid() && active == Some(s) && Outlasted(s, clock)
      modifies `clock, `live, `flying, `issued, `log, `disturbed
      ensures Valid() && old(log) <= log && old(clock) <= clock && (old(disturbed) ==> disturbed)
      ensures same ==> ShowsBaseline(s.baseline.value, live)
      ensures !same && !disturbed ==> !ShowsBaseline(s.baseline.value, live)
      ensures !disturbed ==> live == old(live)
    {
      BoundNow(origin, log, Now(), s);
      for i := 0 to |s.baseline.value|
        invariant Valid() && old(log) <= log && old(clock) <= clock && (old(disturbed) ==> disturbed)
        invariant forall a :: 0 <= a < i ==> BackIn(Now(), a)
        invariant !disturbed ==> live == old(live)
      {
        same := Shows(s.baseline.value[i].id, s.baseline.value[i].routes);
        if !same { return; }
        assert BackIn(Now(), i);
      }
      same := true;
      forall a | 0 <= a < |s.baseline.value|
        ensures s.baseline.value[a].id in live && live[s.baseline.value[a].id] == TableOf(s.baseline.value[a].routes)
      {
        assert BackIn(Now(), a);
      }
    }

    method SetFree(s: State)
      requires Valid() && active == Some(s) && Outlasted(s, clock) && ShowsBaseline(s.baseline.value, live)
      modifies `active, `readBack, `alarm, `log
      ensures Valid() && old(log) <= log && active == Some(s.(status := Released)) && alarm.None?
      ensures forall f :: f in flying ==> UndoShaped(active.value, f.req) && !CarriesForward(Now(), active.value, f)
      ensures Rested(Now()) ==> flying == multiset{}
    {
      Save(s.(status := Released), Event.Release);
      DropAlarm();
      ReleasedShowsBaseline(origin, log, Now(), active.value);
    }
  }

  /** The key was never sent before and has been now. */
  ghost predicate SentNow(w: World, v: World, key: Key) {
    key !in w.sent && key in v.sent && v.sent == w.sent[key := v.sent[key]] && w.clock <= v.sent[key] <= v.clock
  }

  /** Still inside its window: the alarm only re-arms itself. */
  predicate Waiting(s: State, now: int) { (s.status == Reserved || s.status == Armed) && now < s.deadline }

  /** `t` is the record one wake leaves, an added route's id possibly noted on the way. */
  ghost predicate WakeOf(s: State, t: State, ok: bool, now: int)
    requires Bound(s)
  {
    t == AfterWake(s, ok, now) || (RestoringRoutes(s) && exists id :: t == AfterWake(Noted(s, s.restoreIndex.value, id), ok, now))
  }

  /** Whether an id was noted on the way or not, the round is one wake nearer its end. */
  lemma WakeEnds(s: State, t: State, ok: bool, now: int)
    requires Bound(s) && s.status == Restoring && WakeOf(s, t, ok, now)
    ensures Bound(t) && (t.status == Restoring <==> WakesLeft(s) > 1)
    ensures t.status == Restoring || t.status == Restored || t.status == ReconciliationRequired
    ensures WakesLeft(s) > 1 ==> WakesLeft(t) == WakesLeft(s) - 1
  {
    if t == AfterWake(s, ok, now) {
      WakeFalls(s, ok, now);
    } else {
      var id :| t == AfterWake(Noted(s, s.restoreIndex.value, id), ok, now);
      WakeFalls(Noted(s, s.restoreIndex.value, id), ok, now);
    }
  }

  /** What a calm round has kept so far, and what it ends with. */
  ghost predicate RoundKept(s: State, t: State, live: map<ZoneId, Table>)
    requires Bound(s)
  {
    && Bound(t) && t.baseline == s.baseline
    && (t.status == Restoring ==> Calm(t, live) && t.cleanReads == s.cleanReads)
    && (t.status != Restoring ==> t.status == Restored && t.cleanReads == s.cleanReads + 1 && ShowsBaseline(s.baseline.value, live))
  }

  lemma KeptByWake(s0: State, s: State, before: map<ZoneId, Table>, t: State, live: map<ZoneId, Table>, now: int)
    requires Bound(s0) && Bound(s) && s.status == Restoring && RoundKept(s0, s, before) && (t, live) == CalmWake(s, before, now)
    ensures RoundKept(s0, t, live)
  {
    CalmWakeFalls(s, before, now);
    CalmWakeKeepsCalm(s, before, now);
    if WakesLeft(s) == 1 {
      forall a | 0 <= a < |s.baseline.value| ensures live[s.baseline.value[a].id] == TableOf(s.baseline.value[a].routes) {
        UndoneIsBaseline(s, before, a);
      }
    }
  }

  /** A report the watchdog should accept now, if the provider shows the plan. */
  predicate MayAccept(s: State, report: string, valid: bool, now: int) {
    || (s.status == Accepted && s.acceptedReport == Some(report))
    || (s.status == Armed && Bound(s) && now <= s.deadline && valid
        && |s.intents| == |s.plan.value.routes| && AllAcked(s))
  }

  /** The listings every zone must show once the whole plan is applied. */
  method ExpectedZones(s: State) returns (zones: seq<Zone>)
    requires Bound(s) && AllAcked(s)
    ensures |zones| == |s.baseline.value|
    ensures forall a :: 0 <= a < |zones| ==> IsExpected(s, a, zones[a])
  {
    zones := [];
    for a := 0 to |s.baseline.value|
      invariant |zones| == a && forall b :: 0 <= b < a ==> IsExpected(s, b, zones[b])
    {
      var z := s.baseline.value[a];
      var rows := ExpectedRows(z.routes, z.id, s.intents, s.plan.value.workerName);
      zones := zones + [Zone(z.id, rows.value)];
    }
  }

  ghost predicate IsExpected(s: State, a: nat, zone: Zone)
    requires Bound(s) && AllAcked(s) && a < |s.baseline.value|
  {
    var z := s.baseline.value[a];
    zone == Zone(z.id, Expected(z.routes, z.id, s.intents, s.plan.value.workerName))
  }

  /** For an armed lease with every intent acknowledged, those listings are what the provider shows. */
  lemma PlanIsExpected(o: World, log: seq<Event>, w: World, s: State, zones: seq<Zone>)
    requires CarefulTo(o, log, w) && w.active == Some(s) && Bound(s) && s.status == Armed && AllAcked(s)
    requires |zones| == |s.baseline.value| && forall a :: 0 <= a < |zones| ==> IsExpected(s, a, zones[a])
    ensures DistinctRows(zones) && ShowsBaseline(zones, w.live) && ShowsPlan(s, w.live)
  {
    forall a | 0 <= a < |zones|
      ensures Distinct(zones[a].routes) && zones[a].id in w.live && w.live[zones[a].id] == TableOf(zones[a].routes)
      ensures w.live[zones[a].id] == Applied(TableOf(s.baseline.value[a].routes), zones[a].id, s.intents, s.plan.value.workerName)
    {
      assert IsExpected(s, a, zones[a]);
      ZoneAsExpected(o, log, w, s, s.baseline.value[a]);
      BoundNow(o, log, w, s);
      ArmedZoneIsApplied(w, s, s.baseline.value[a]);
    }
  }

  ghost predicate DistinctRows(zones: seq<Zone>) {
    forall a :: 0 <= a < |zones| ==> Distinct(zones[a].routes)
  }

  /** Everything asked of a plan and a baseline before the provider is read. */
  predicate BindChecks(s: State, plan: Plan, zones: seq<Zone>, approved: bool, started: int) {
    && s.status == Reserved && started - s.reservedAt < BIND_MS
    && approved && 0 < |plan.routes| <= 100
    && |zones| == 2 && multiset(ZoneIds(zones)) == multiset(s.scope.zoneIds)
    && (forall c :: 0 <= c < |plan.routes| ==> GroundedChange(plan.routes[c], zones))
    && (forall c, d :: 0 <= c < d < |plan.routes| ==> !SameKey(plan.routes[c], plan.routes[d]))
  }

  lemma ChecksMakeWellBound(s: State, plan: Plan, zones: seq<Zone>, approved: bool, started: int)
    requires BindChecks(s, plan, zones, approved, started) && ScopeOk(s.scope)
    ensures DistinctRows(zones) ==> WellBound(plan, zones)
  {
    ZoneIdsDiffer(zones, s.scope.zoneIds);
  }

  /** The intent's route is listed as planned, under the id the intent records. */
  ghost predicate Granted(w: World, zoneId: ZoneId, pattern: string, r: Route) {
    && w.active.Some? && Bound(w.active.value) && w.active.value.status == Armed
    && exists k: nat :: GrantedAs(w.active.value, w.live, k, zoneId, pattern, r)
  }

  ghost predicate GrantedAs(s: State, live: map<ZoneId, Table>, k: nat, zoneId: ZoneId, pattern: string, r: Route)
    requires Bound(s)
  {
    && k < |s.intents| && s.intents[k].change.zoneId == zoneId && s.intents[k].change.pattern == pattern
    && s.intents[k].id == Some(r.id) && RowApplied(s, live, k, r.id) && r == WorkerRoute(s.intents[k], s.plan.value.workerName)
  }

  /** A planned change the watchdog should send now: in time, never tried, its zone all acknowledged. */
  predicate MayMutate(s: State, zoneId: ZoneId, pattern: string, now: int) {
    && s.status == Armed && now < s.deadline && Bound(s) && FindChange(s.plan.value.routes, zoneId, pattern).Some?
    && FindIntent(s.intents, zoneId, pattern).None? && Acked(zoneId, s.intents)
  }

  function FindChange(routes: seq<Change>, zoneId: ZoneId, pattern: string): Option<Change> {
    if routes == [] then None
    else if routes[0].zoneId == zoneId && routes[0].pattern == pattern then Some(routes[0])
    else FindChange(routes[1..], zoneId, pattern)
  }

  lemma {:induction false} FindChangeHits(routes: seq<Change>, zoneId: ZoneId, pattern: string)
    ensures var c := FindChange(routes, zoneId, pattern);
            if c.Some? then c.value in routes && c.value.zoneId == zoneId && c.value.pattern == pattern
            else forall i :: 0 <= i < |routes| ==> routes[i].zoneId != zoneId || routes[i].pattern != pattern
  {
    if routes != [] && (routes[0].zoneId != zoneId || routes[0].pattern != pattern) {
      FindChangeHits(routes[1..], zoneId, pattern);
      assert forall i :: 0 < i < |routes| ==> routes[i] == routes[1..][i - 1];
    }
  }

  function FindIntent(intents: seq<Intent>, zoneId: ZoneId, pattern: string): Option<nat> {
    if intents == [] then None
    else if intents[0].change.zoneId == zoneId && intents[0].change.pattern == pattern then Some(0)
    else
      var k := FindIntent(intents[1..], zoneId, pattern);
      if k.Some? then Some(k.value + 1) else None
  }

  lemma {:induction false} FindIntentHits(intents: seq<Intent>, zoneId: ZoneId, pattern: string)
    ensures var k := FindIntent(intents, zoneId, pattern);
            if k.Some? then k.value < |intents| && intents[k.value].change.zoneId == zoneId && intents[k.value].change.pattern == pattern
            else forall i :: 0 <= i < |intents| ==> intents[i].change.zoneId != zoneId || intents[i].change.pattern != pattern
  {
    if intents != [] && (intents[0].change.zoneId != zoneId || intents[0].change.pattern != pattern) {
      FindIntentHits(intents[1..], zoneId, pattern);
      assert forall i :: 0 < i < |intents| ==> intents[i] == intents[1..][i - 1];
    }
  }

  /** Builds, splice by splice, the listing a zone must show; None when one of its intents was
      never acknowledged. */
  method ExpectedRows(rows: seq<Route>, zone: ZoneId, intents: seq<Intent>, worker: string) returns (expected: Option<seq<Route>>)
    ensures expected.Some? <==> Acked(zone, intents)
    ensures expected.Some? ==> expected.value == Expected(rows, zone, intents, worker)
  {
    var built := rows;
    for n := 0 to |intents|
      invariant Acked(zone, intents[..n]) && built == Expected(rows, zone, intents[..n], worker)
    {
      var i := intents[n];
      if i.change.zoneId == zone {
        if i.id.None? { return None; }
        if i.before.Some? {
          built := SpliceOne(built, FindIndex(built, i.before.value.id), WorkerRoute(i, worker));
        } else {
          built := built + [WorkerRoute(i, worker)];
        }
      }
      assert intents[..n + 1][..n] == intents[..n];
    }
    assert intents[..|intents|] == intents;
    expected := Some(built);
  }

  function Noted(s: State, k: nat, id: RouteId): State
    requires k < |s.intents|
  {
    s.(intents := s.intents[k := s.intents[k].(id := Some(id))])
  }

  function ZoneIds(zones: seq<Zone>): (ids: seq<ZoneId>)
    ensures |ids| == |zones| && forall a :: 0 <= a < |zones| ==> ids[a] == zones[a].id
  {
    seq(|zones|, a requires 0 <= a < |zones| => zones[a].id)
  }

  /** The same ids in any order as a list without repeats: no repeats either. */
  lemma ZoneIdsDiffer(zones: seq<Zone>, ids: seq<ZoneId>)
    requires multiset(ZoneIds(zones)) == multiset(ids)
    requires forall a, b :: 0 <= a < b < |ids| ==> ids[a] != ids[b]
    ensures forall a, b :: 0 <= a < b < |zones| ==> zones[a].id != zones[b].id
  {
    var have := ZoneIds(zones);
    forall a, b | 0 <= a < b < |zones| ensures zones[a].id != zones[b].id {
      OnceOnly(ids, have[a]);
      assert have == have[..b] + [have[b]] + have[b + 1..];
      assert multiset(have) == multiset(have[..b]) + multiset([have[b]]) + multiset(have[b + 1..]);
      assert have[..b][a] == have[a];
      assert multiset(have[..b])[have[a]] >= 1;
    }
  }

  lemma {:induction false} OnceOnly(ids: seq<ZoneId>, id: ZoneId)
    requires forall a, b :: 0 <= a < b < |ids| ==> ids[a] != ids[b]
    ensures multiset(ids)[id] <= 1
  {
    if ids != [] {
      var n := |ids| - 1;
      assert ids == ids[..n] + [ids[n]];
      OnceOnly(ids[..n], id);
    }
  }
}
