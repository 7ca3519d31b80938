/** What the release fence gives and what it does not. Forward writes never outlast it. Undoing writes
    may: the fence is counted from the first clean round, and later rounds still send them. */
module WatchdogFence {
  import opened Options
  import opened Routes
  import opened WatchdogProtocol
  import opened WatchdogSafety
  import opened WatchdogAlways
  import opened WatchdogRuns

  // ------------------------------------------------------------------ when an undoing write can be left

  /** The lease may be released now, `gap` after its last undoing write was sent, and something of it is
      still in the network. */
  ghost predicate StrayAtRelease(w: World, gap: int) {
    Enabled(w, Release) && w.lastUndo == Some(w.clock - gap) && w.flying != multiset{}
  }

  lemma StrayIsYoung(o: World, log: seq<Event>, w: World, gap: int)
    requires RunsTo(o, log, w) && StrayAtRelease(w, gap)
    ensures 0 <= gap < LIFETIME_MS
  {
    AlwaysNow(o, log, w);
    FenceOutlastsForwards(o, log, w, w.active.value);
  }

  /** An undoing write can still be in the network when a lease is released exactly when the last one was
      sent less than a request's lifetime ago. */
  lemma StrayExactly(gap: int)
    ensures (exists o, log, w :: RunsTo(o, log, w) && StrayAtRelease(w, gap)) <==> 0 <= gap < LIFETIME_MS
  {
    if o, log, w :| RunsTo(o, log, w) && StrayAtRelease(w, gap) { StrayIsYoung(o, log, w, gap); }
    if 0 <= gap < LIFETIME_MS {
      var w := Fenced(gap);
      var log :| CarefulTo(Start(), log, w);
    }
  }

  // ------------------------------------------------------------------ what it can do to the next lease

  /** The last reservation of the run is its event n. It came `gap` after the last undoing write. */
  ghost predicate ReservedAfter(o: World, log: seq<Event>, n: nat, gap: int) {
    LastReserved(log, n) && GapAfter(o, log[..n], gap)
  }

  ghost predicate GapAfter(o: World, es: seq<Event>, gap: int) {
    After(o, es).Some? && var w := After(o, es).value; w.lastUndo == Some(w.clock - gap)
  }

  /** A lease is accepted, and some zone does not show its plan. */
  ghost predicate AcceptedWithoutPlan(w: World) {
    && w.active.Some? && Bound(w.active.value) && w.active.value.status == Accepted
    && exists a :: 0 <= a < |w.active.value.baseline.value| && !PlanShownIn(w, a)
  }

  ghost predicate PlanShownIn(w: World, a: nat)
    requires w.active.Some? && Bound(w.active.value) && a < |w.active.value.baseline.value|
  {
    var zone := w.active.value.baseline.value[a];
    zone.id in w.live && ShowsWholePlan(w.active.value.plan.value, zone, w.live[zone.id])
  }

  lemma LateReservationIsSafe(o: World, log: seq<Event>, w: World, n: nat, gap: int)
    requires RunsTo(o, log, w) && ReservedAfter(o, log, n, gap) && AcceptedWithoutPlan(w)
    ensures 0 <= gap < LIFETIME_MS
  {
    AlwaysAlongRun(o, log[..n]);
    if gap >= LIFETIME_MS {
      forall m: nat | LastReserved(log, m) ensures m == n { }
      var a :| 0 <= a < |w.active.value.baseline.value| && !PlanShownIn(w, a);
      AcceptedShowsWholePlan(o, log, w, w.active.value, w.active.value.baseline.value[a]);
    }
  }

  /** Reserving the next lease `gap` after the last undoing write can cost an accepted plan exactly when
      the gap is shorter than a request's lifetime: then a late undo may take back a route of the next
      lease, unnoticed after its acceptance. */
  lemma EarlyReservationExactly(gap: int)
    ensures (exists o, log, w, n :: RunsTo(o, log, w) && ReservedAfter(o, log, n, gap) && AcceptedWithoutPlan(w))
            <==> 0 <= gap < LIFETIME_MS
  {
    if o, log, w, n :| RunsTo(o, log, w) && ReservedAfter(o, log, n, gap) && AcceptedWithoutPlan(w) {
      LateReservationIsSafe(o, log, w, n, gap);
    }
    if 0 <= gap < LIFETIME_MS {
      var w := Spoilt(gap);
      var log, n :| RunsTo(Start(), log, w) && ReservedAfter(Start(), log, n, gap);
    }
  }

  // ------------------------------------------------------------------ the run: one zone route, two leases

  const RU_ZONE := "ru"
  const WORKER := "worker"
  const ID := RouteId(0)
  const OLD := Route(ID, "pattern", None)
  const OLD_ROW := Row("pattern", None)
  const NEW_ROW := Row("pattern", Some(WORKER))
  const CHANGE := Change(COM_ZONE, "pattern", Some(ID))
  const PLAN := Plan(WORKER, [CHANGE])
  const ZONES: seq<Zone> := [Zone(COM_ZONE, [OLD]), Zone(RU_ZONE, [])]
  /** Any time will do, and the time its fence later. */
  const DAWN := 1_700_000_000_000
  const DUSK := DAWN + FENCE_MS
  const UNDO := Put(COM_ZONE, ID, OLD_ROW)
  /** The undoing write nobody hears of again until it is too late. */
  const STRAY := Flight(UNDO, DUSK)

  function ScopeOf(op: OpId): Scope { Scope(op, op, "sha", [COM_ZONE, RU_ZONE]) }

  function Live(row: Row): map<ZoneId, Table> { map[COM_ZONE := map[ID := row], RU_ZONE := map[]] }

  function Start(): World { World(DAWN, None, map[], None, Live(OLD_ROW), multiset{}, 1, map[], None, false) }

  function KeyFor(op: OpId): Key { Key(op, COM_ZONE, "pattern") }

  /** The lease of `op`, reserved and bound at `at`, armed. */
  function Lease(op: OpId, at: int): State {
    NewLease(ScopeOf(op), at).(plan := Some(PLAN), baseline := Some(ZONES), status := Armed)
  }

  function Intended(acked: bool, restored: bool): Intent { Intent(CHANGE, Some(OLD), if acked then Some(ID) else None, restored) }

  /** The first lease after a round: `clean` clean reads so far, the first of them at dawn. */
  function AfterRound(status: Status, clean: nat): State {
    Lease("first", DAWN).(status := status, intents := [Intended(false, true)], cleanReads := clean,
      restoreIndex := Some(-1), verifyIndex := 2, originIndex := HOSTS, roundFailed := status == ReconciliationRequired,
      restoredAt := Some(DAWN))
  }

  /** What the archive holds once the first lease was let go. */
  const HISTORY := map["first" := AfterRound(Released, 3)]

  ghost predicate Reached(w: World) { exists log :: CarefulTo(Start(), log, w) }

  lemma Goes(w: World, e: Event)
    requires Reached(w) && Enabled(w, e) && (e.Reserve? ==> Rested(w))
    ensures Reached(Next(w, e))
  {
    var log :| CarefulTo(Start(), log, w);
    StaysCareful(Start(), log, w, e);
  }

  lemma Begins()
    ensures Reached(Start()) && WellBound(PLAN, ZONES) && ShowsBaseline(ZONES, Live(OLD_ROW))
  {
    EmptyRun(Start());
    assert CarefulTo(Start(), [], Start());
    assert FindZone(ZONES, COM_ZONE) == Some(ZONES[0]);
    assert ZONES[0].routes[0] == OLD && OLD in ZONES[0].routes;
    assert GroundedChange(CHANGE, ZONES);
    TableOfOne(OLD);
  }

  lemma TableOfOne(r: Route)
    ensures TableOf([r]) == map[r.id := r.ToRow()]
  {
    assert [r][..0] == [];
  }

  /** Sets the alarm, as every handler does after its save. */
  lemma AlarmSet(w: World, at: int) returns (v: World)
    requires Reached(w)
    ensures v == w.(alarm := Some(at)) && Reached(v)
  {
    Goes(w, SetAlarm(at));
    v := Next(w, SetAlarm(at));
  }

  lemma Woken(w: World, s: State, ok: bool) returns (v: World)
    requires Reached(w) && w.active == Some(s) && Bound(s) && s.status == Restoring && (ok && VerifyingZones(s) ==> w.readBack)
    ensures Reached(v) && v == w.(active := Some(AfterWake(s, ok, w.clock)), alarm := v.alarm, readBack := false)
  {
    Goes(w, Wake(ok));
    v := AlarmSet(Next(w, Wake(ok)), w.clock + WAKE_MS);
  }

  /** A wake that compares one zone, and finds it back or not. */
  lemma ZoneCompared(w: World, s: State, back: bool) returns (v: World)
    requires Reached(w) && w.active == Some(s) && Bound(s) && s.status == Restoring && VerifyingZones(s)
    requires back ==> ZoneBack(w, s.verifyIndex)
    ensures Reached(v) && v == w.(active := Some(AfterWake(s, back, w.clock)), alarm := v.alarm, readBack := false)
  {
    if back {
      Goes(w, ReadBack);
      v := Woken(Next(w, ReadBack), s, true);
    } else {
      v := Woken(w, s, false);
    }
  }

  lemma RoundBegun(w: World, s: State) returns (v: World)
    requires Reached(w) && w.active == Some(s) && Bound(s)
    ensures Reached(v) && v == w.(active := Some(StartedRound(s)), alarm := v.alarm, readBack := false)
  {
    Goes(w, StartRound);
    v := AlarmSet(Next(w, StartRound), w.clock + WAKE_MS);
  }

  /** The wakes of a round after its one route: two zones, the first of them back or not, two hosts and
      the verdict. */
  lemma RoundFinished(w: World, s: State, first: bool) returns (v: World, t: State)
    requires Reached(w) && w.active == Some(s) && Bound(s) && s.status == Restoring && |s.baseline.value| == 2
    requires !RestoringRoutes(s) && s.verifyIndex == s.originIndex == 0 && (first ==> ZoneBack(w, 0)) && ZoneBack(w, 1)
    ensures Reached(v) && v == w.(active := Some(t), alarm := v.alarm, readBack := false)
    ensures var failed := s.roundFailed || !first;
            t == s.(verifyIndex := 2, originIndex := HOSTS, roundFailed := failed,
                    status := if failed then ReconciliationRequired else Restored,
                    cleanReads := if failed then 0 else s.cleanReads + 1,
                    restoredAt := if failed || s.restoredAt.Some? then s.restoredAt else Some(w.clock))
  {
    var a := ZoneCompared(w, s, first);
    var b := ZoneCompared(a, a.active.value, true);
    var c := Woken(b, b.active.value, true);
    var d := Woken(c, c.active.value, true);
    v := Woken(d, d.active.value, !d.active.value.roundFailed);
    t := v.active.value;
  }

  /** A round that finds the one route as it was: nothing is sent. */
  lemma QuietRound(w: World, s: State) returns (v: World, t: State)
    requires Reached(w) && w.active == Some(s) && Bound(s) && |s.intents| == 1 && |s.baseline.value| == 2
    requires ZoneBack(w, 0) && ZoneBack(w, 1)
    ensures Reached(v) && v == w.(active := Some(t), alarm := v.alarm, readBack := false)
    ensures t == s.(intents := [s.intents[0].(restored := true)], restoreIndex := Some(-1), verifyIndex := 2, originIndex := HOSTS,
                    roundFailed := false, status := Restored, cleanReads := s.cleanReads + 1,
                    restoredAt := if s.restoredAt.Some? then s.restoredAt else Some(w.clock))
  {
    var a := RoundBegun(w, s);
    var b := Woken(a, a.active.value, true);
    assert s.intents[0 := s.intents[0].(restored := true)] == [s.intents[0].(restored := true)];
    v, t := RoundFinished(b, b.active.value, true);
  }

  lemma BindsNow(w: World, op: OpId, at: int)
    requires w.active == Some(NewLease(ScopeOf(op), at)) && w.clock == at && w.live == Live(OLD_ROW)
    ensures Enabled(w, Bind(PLAN, ZONES)) && Next(w, Bind(PLAN, ZONES)) == w.(active := Some(Lease(op, at)))
  {
    Begins();
  }

  /** At dawn the first lease is reserved and bound, and its one write is sent. */
  lemma Sent() returns (w: World)
    ensures Reached(w)
    ensures w == Start().(active := Some(Lease("first", DAWN).(intents := [Intended(false, false)])), alarm := w.alarm,
                          flying := multiset{Flight(Put(COM_ZONE, ID, NEW_ROW), DAWN)}, sent := map[KeyFor("first") := DAWN])
  {
    Begins();
    Goes(Start(), Reserve(ScopeOf("first")));
    var a := AlarmSet(Next(Start(), Reserve(ScopeOf("first"))), DAWN + WINDOW_MS);
    BindsNow(a, "first", DAWN);
    Goes(a, Bind(PLAN, ZONES));
    var b := AlarmSet(Next(a, Bind(PLAN, ZONES)), DAWN + WINDOW_MS);
    w := WriteSent(b, "first", DAWN);
  }

  /** The intent is saved and its write leaves. */
  lemma SaveAndSend(w: World, op: OpId, at: int)
    requires w.active == Some(Lease(op, at)) && KeyFor(op) !in w.sent && w.clock == at
    ensures Enabled(w, SaveIntent(CHANGE))
    ensures var v := Next(w, SaveIntent(CHANGE));
            && v == w.(active := Some(Lease(op, at).(intents := [Intended(false, false)])))
            && Enabled(v, SendForward)
            && Next(v, SendForward) == v.(flying := v.flying + multiset{Flight(Put(COM_ZONE, ID, NEW_ROW), at)}, sent := v.sent[KeyFor(op) := at])
  {
    assert CHANGE in PLAN.routes && FindZone(ZONES, COM_ZONE) == Some(ZONES[0]);
    assert BeforeOf(ZONES, CHANGE) == Some(OLD);
    assert [] + [Intended(false, false)] == [Intended(false, false)];
  }

  lemma WriteSent(w: World, op: OpId, at: int) returns (v: World)
    requires Reached(w) && w.active == Some(Lease(op, at)) && KeyFor(op) !in w.sent && w.clock == at
    ensures Reached(v)
    ensures v == w.(active := Some(Lease(op, at).(intents := [Intended(false, false)])),
                    flying := w.flying + multiset{Flight(Put(COM_ZONE, ID, NEW_ROW), at)}, sent := w.sent[KeyFor(op) := at])
  {
    SaveAndSend(w, op, at);
    Goes(w, SaveIntent(CHANGE));
    v := Next(w, SaveIntent(CHANGE));
    Goes(v, SendForward);
    v := Next(v, SendForward);
  }

  /** No answer comes: a first round finds everything as it was. Then the write arrives. */
  lemma LateArrival() returns (w: World)
    ensures Reached(w)
    ensures w == World(DAWN, Some(AfterRound(Restored, 1)), map[], w.alarm, Live(NEW_ROW), multiset{}, 2, map[KeyFor("first") := DAWN], None, false)
  {
    var a := Sent();
    Goes(a, MarkFailed);
    var b, t := QuietRound(Next(a, MarkFailed), Next(a, MarkFailed).active.value);
    assert t == AfterRound(Restored, 1);
    w := PutLands(b, Flight(Put(COM_ZONE, ID, NEW_ROW), DAWN), OLD_ROW);
    assert w.flying == multiset{};
  }

  lemma PutIsLanded(row: Row, f: Flight, issued: RouteId)
    requires f.req.Put? && f.req.zone == COM_ZONE && f.req.id == ID
    ensures Landed(Live(row), f.req, issued) == Live(f.req.row)
  {
    assert |COM_ZONE| != |RU_ZONE|;
    assert map[ID := row][ID := f.req.row] == map[ID := f.req.row];
    assert Live(row)[COM_ZONE := map[ID := row][ID := f.req.row]] == Live(f.req.row);
  }

  lemma PutLands(w: World, f: Flight, row: Row) returns (v: World)
    requires Reached(w) && f in w.flying && w.live == Live(row) && f.req.Put? && f.req.zone == COM_ZONE && f.req.id == ID
    ensures Reached(v) && v == w.(live := Live(f.req.row), flying := w.flying - multiset{f}, issued := w.issued + 1)
  {
    PutIsLanded(row, f, RouteId(w.issued));
    Goes(w, Land(f));
    v := Next(w, Land(f));
  }

  /** An undoing write for the one route leaves during the sweep. */
  lemma UndoSent(w: World, s: State) returns (v: World)
    requires Reached(w) && w.active == Some(s) && Bound(s) && s.status == Restoring && s.intents == [Intended(false, true)]
    ensures Reached(v) && v == w.(flying := w.flying + multiset{Flight(UNDO, w.clock)}, lastUndo := Some(w.clock))
  {
    assert Replaces(s, 0, COM_ZONE, ID) && OLD_ROW == s.intents[0].before.value.ToRow();
    Goes(w, SendRestore(UNDO));
    v := Next(w, SendRestore(UNDO));
  }

  /** A minute later a round sends an undoing write that stays unanswered, and fails. */
  lemma Failed() returns (w: World)
    ensures Reached(w)
    ensures w == World(DUSK, Some(AfterRound(ReconciliationRequired, 0)), map[], w.alarm, Live(NEW_ROW), multiset{STRAY}, 2,
                       map[KeyFor("first") := DAWN], Some(DUSK), false)
  {
    var a := LateArrival();
    Goes(a, Tick(DUSK));
    var b := RoundBegun(Next(a, Tick(DUSK)), a.active.value);
    var c := UndoSent(b, b.active.value);
    assert c.flying == multiset{STRAY};
    var d := Woken(c, c.active.value, false);
    var t;
    w, t := RoundFinished(d, d.active.value, false);
    assert t == AfterRound(ReconciliationRequired, 0);
  }

  /** The next round sends it again, is answered, and two quiet rounds follow: three clean reads. */
  lemma Clean() returns (w: World)
    ensures Reached(w)
    ensures w == World(DUSK, Some(AfterRound(Restored, 3)), map[], w.alarm, Live(OLD_ROW), multiset{STRAY}, 3,
                       map[KeyFor("first") := DAWN], Some(DUSK), false)
  {
    var a := Failed();
    var b := RoundBegun(a, a.active.value);
    var c := UndoSent(b, b.active.value);
    var d := PutLands(c, STRAY, NEW_ROW);
    assert d.flying == multiset{STRAY};
    var e := Woken(d, d.active.value, true);
    assert [Intended(false, true)][0 := Intended(false, true)] == [Intended(false, true)];
    var f, t := RoundFinished(e, e.active.value, true);
    assert t == AfterRound(Restored, 1);
    var g, u := QuietRound(f, t);
    var h;
    w, h := QuietRound(g, u);
    assert h == AfterRound(Restored, 3);
  }

  /** Up to `gap` later the lease may be released, and the unanswered undo is still under way. */
  lemma Fenced(gap: int) returns (w: World)
    requires 0 <= gap < LIFETIME_MS
    ensures Reached(w) && StrayAtRelease(w, gap)
    ensures w == World(DUSK + gap, Some(AfterRound(Restored, 3)), map[], w.alarm, Live(OLD_ROW), multiset{STRAY}, 3,
                       map[KeyFor("first") := DAWN], Some(DUSK), false)
  {
    Begins();
    var a := Clean();
    Goes(a, Tick(DUSK + gap));
    w := Next(a, Tick(DUSK + gap));
    assert STRAY in w.flying;
  }

  // ------------------------------------------------------------------ and the next lease loses its route

  /** Reached by a run whose last reservation came too early. */
  ghost predicate ReachedSince(w: World, gap: int) {
    exists log, n: nat :: RunsTo(Start(), log, w) && ReservedAfter(Start(), log, n, gap)
  }

  lemma GoesOn(w: World, e: Event, gap: int)
    requires ReachedSince(w, gap) && Enabled(w, e) && !e.Reserve?
    ensures ReachedSince(Next(w, e), gap)
  {
    var log, n: nat :| RunsTo(Start(), log, w) && ReservedAfter(Start(), log, n, gap);
    RunsOn(Start(), log, w, e);
    LongerAfter(Start(), log, n, gap, e);
  }

  lemma LongerAfter(o: World, log: seq<Event>, n: nat, gap: int, e: Event)
    requires ReservedAfter(o, log, n, gap) && !e.Reserve?
    ensures ReservedAfter(o, log + [e], n, gap)
  {
    assert (log + [e])[..n] == log[..n];
  }

  lemma ReservesEarly(w: World, scope: Scope, gap: int)
    requires Reached(w) && Enabled(w, Reserve(scope)) && w.lastUndo == Some(w.clock - gap)
    ensures ReachedSince(Next(w, Reserve(scope)), gap)
  {
    var log :| CarefulTo(Start(), log, w);
    RunsOn(Start(), log, w, Reserve(scope));
    LastIsReserved(Start(), log, w, Reserve(scope), gap);
  }

  lemma LastIsReserved(o: World, log: seq<Event>, w: World, e: Event, gap: int)
    requires CarefulTo(o, log, w) && e.Reserve? && w.lastUndo == Some(w.clock - gap)
    ensures ReservedAfter(o, log + [e], |log|, gap)
  {
    RunEnds(o, log, w);
    assert (log + [e])[..|log|] == log;
  }

  lemma FirstReleased(gap: int) returns (w: World)
    requires 0 <= gap < LIFETIME_MS
    ensures Reached(w)
    ensures w == World(DUSK + gap, Some(AfterRound(Released, 3)), map[], w.alarm, Live(OLD_ROW), multiset{STRAY}, 3,
                       map[KeyFor("first") := DAWN], Some(DUSK), false)
  {
    var a := Fenced(gap);
    Goes(a, Release);
    w := Next(a, Release);
  }

  /** The first lease is released and archived. */
  lemma LetGoOf(gap: int) returns (w: World)
    requires 0 <= gap < LIFETIME_MS
    ensures Reached(w) && w.active == Some(AfterRound(Released, 3)) && w.history == HISTORY
    ensures w == World(DUSK + gap, w.active, w.history, None, Live(OLD_ROW), multiset{STRAY}, 3, map[KeyFor("first") := DAWN], Some(DUSK), false)
  {
    var a := FirstReleased(gap);
    Goes(a, ClearAlarm);
    var b := Next(a, ClearAlarm);
    Goes(b, Archive);
    w := Next(b, Archive);
  }

  lemma SecondReserved(gap: int) returns (w: World)
    requires 0 <= gap < LIFETIME_MS
    ensures ReachedSince(w, gap)
    ensures var at := DUSK + gap;
            w == World(at, Some(NewLease(ScopeOf("second"), at)), HISTORY, w.alarm, Live(OLD_ROW), multiset{STRAY}, 3,
                       map[KeyFor("first") := DAWN], Some(DUSK), false)
  {
    var a := LetGoOf(gap);
    ReservesEarly(a, ScopeOf("second"), gap);
    var b := Next(a, Reserve(ScopeOf("second")));
    GoesOn(b, SetAlarm(b.clock + WINDOW_MS), gap);
    w := Next(b, SetAlarm(b.clock + WINDOW_MS));
  }

  lemma SecondBound(gap: int) returns (w: World)
    requires 0 <= gap < LIFETIME_MS
    ensures ReachedSince(w, gap)
    ensures var at := DUSK + gap;
            w == World(at, Some(Lease("second", at)), HISTORY, w.alarm, Live(OLD_ROW), multiset{STRAY}, 3,
                       map[KeyFor("first") := DAWN], Some(DUSK), false)
  {
    var at := DUSK + gap;
    var a := SecondReserved(gap);
    BindsNow(a, "second", at);
    GoesOn(a, Bind(PLAN, ZONES), gap);
    var b := Next(a, Bind(PLAN, ZONES));
    GoesOn(b, SetAlarm(at + WINDOW_MS), gap);
    w := Next(b, SetAlarm(at + WINDOW_MS));
  }

  /** The second lease is reserved at once, bound, and its write for the same route is sent. */
  lemma Second(gap: int) returns (w: World)
    requires 0 <= gap < LIFETIME_MS
    ensures ReachedSince(w, gap)
    ensures var at := DUSK + gap;
            w == World(at, Some(Lease("second", at).(intents := [Intended(false, false)])), HISTORY, w.alarm, Live(OLD_ROW),
                       multiset{STRAY, Flight(Put(COM_ZONE, ID, NEW_ROW), at)}, 3, map[KeyFor("first") := DAWN, KeyFor("second") := at], Some(DUSK), false)
  {
    var a := SecondBound(gap);
    SaveAndSend(a, "second", DUSK + gap);
    GoesOn(a, SaveIntent(CHANGE), gap);
    var b := Next(a, SaveIntent(CHANGE));
    GoesOn(b, SendForward, gap);
    w := Next(b, SendForward);
  }

  /** The write is applied. */
  lemma SecondLanded(gap: int) returns (w: World)
    requires 0 <= gap < LIFETIME_MS
    ensures ReachedSince(w, gap)
    ensures var at := DUSK + gap;
            w == World(at, Some(Lease("second", at).(intents := [Intended(false, false)])), HISTORY, w.alarm, Live(NEW_ROW),
                       multiset{STRAY}, 4, map[KeyFor("first") := DAWN, KeyFor("second") := at], Some(DUSK), false)
  {
    var f := Flight(Put(COM_ZONE, ID, NEW_ROW), DUSK + gap);
    var a := Second(gap);
    PutIsLanded(OLD_ROW, f, RouteId(a.issued));
    GoesOn(a, Land(f), gap);
    w := Next(a, Land(f));
    assert w.flying == multiset{STRAY};
  }

  /** The write is acknowledged and the lease accepted. */
  lemma SecondAccepted(gap: int) returns (w: World)
    requires 0 <= gap < LIFETIME_MS
    ensures ReachedSince(w, gap)
    ensures var at := DUSK + gap;
            w == World(at, Some(Lease("second", at).(status := Accepted, intents := [Intended(true, false)], acceptedReport := Some("report"))),
                       HISTORY, w.alarm, Live(NEW_ROW), multiset{STRAY}, 4, map[KeyFor("first") := DAWN, KeyFor("second") := at], Some(DUSK), false)
  {
    var a := SecondLanded(gap);
    GoesOn(a, Ack(0, ID), gap);
    var b := Next(a, Ack(0, ID));
    assert [Intended(false, false)][0 := Intended(true, false)] == [Intended(true, false)];
    PlanIsShown(b.active.value, b.live);
    GoesOn(b, Accept("report"), gap);
    w := Next(b, Accept("report"));
  }

  lemma PlanIsShown(s: State, live: map<ZoneId, Table>)
    requires s.plan == Some(PLAN) && s.baseline == Some(ZONES) && s.intents == [Intended(true, false)] && live == Live(NEW_ROW)
    ensures Bound(s) && FullyApplied(s, live)
  {
    TableOfOne(OLD);
    assert s.intents[..0] == [];
    assert Applied(map[ID := OLD_ROW], COM_ZONE, s.intents, WORKER) == map[ID := NEW_ROW];
    assert Applied(map[], RU_ZONE, s.intents, WORKER) == map[];
  }

  /** The undo of the first lease arrives and takes the accepted route back. */
  lemma Spoilt(gap: int) returns (w: World)
    requires 0 <= gap < LIFETIME_MS
    ensures ReachedSince(w, gap) && AcceptedWithoutPlan(w)
  {
    var a := SecondAccepted(gap);
    PutIsLanded(NEW_ROW, STRAY, RouteId(a.issued));
    GoesOn(a, Land(STRAY), gap);
    w := Next(a, Land(STRAY));
    assert w.live[COM_ZONE] == map[ID := OLD_ROW];
    assert CHANGE in PLAN.routes && !ChangeShown(PLAN, ZONES[0], w.live[COM_ZONE], CHANGE);
    assert !PlanShownIn(w, 0);
  }
}
