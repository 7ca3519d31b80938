/** When a zone of a lease can be anything but its baseline with saved intents applied: only after two early
    reservations in a row. */
module WatchdogTwice {
  import opened Options
  import opened Routes
  import opened WatchdogProtocol
  import opened WatchdogSafety
  import opened WatchdogAlways
  import opened WatchdogLate
  import opened WatchdogRuns
  import opened WatchdogFence

  /** The last two reservations of the run, and how long after the last undoing write each of them came. */
  ghost predicate ReservedTwice(o: World, log: seq<Event>, m: nat, n: nat, gap: int, next: int) {
    LastTwoReserved(log, m, n) && GapAfter(o, log[..m], gap) && GapAfter(o, log[..n], next)
  }

  /** Some zone of the lease is not its baseline with some of the saved intents applied. */
  ghost predicate OffBaseline(w: World) {
    && w.active.Some? && Bound(w.active.value)
    && exists a: nat :: a < |w.active.value.baseline.value| && ZoneOff(w, a)
  }

  ghost predicate ZoneOff(w: World, a: nat)
    requires w.active.Some? && Bound(w.active.value) && a < |w.active.value.baseline.value|
  {
    var zone := w.active.value.baseline.value[a];
    zone.id !in w.live || forall on :: !ShowsSubset(w.active.value, zone, w.live[zone.id], on)
  }

  lemma LateIsOnBaseline(w: World)
    requires Always(w) && Late(w)
    ensures !OffBaseline(w)
  {
    if w.active.Some? && Bound(w.active.value) {
      forall a: nat | a < |w.active.value.baseline.value| ensures !ZoneOff(w, a) {
        var on := LateShowsSubset(w, w.active.value, w.active.value.baseline.value[a]);
      }
    }
  }

  // ------------------------------------------------------------------ both came early

  lemma EarlyGaps(o: World, log: seq<Event>, m: nat, n: nat, gap: int, next: int)
    requires Init(o) && Legal(o, log) && ReservedTwice(o, log, m, n, gap, next) && EarlyTwice(o, log)
    ensures 0 <= gap < LIFETIME_MS && next < LIFETIME_MS
  {
    AlwaysAlongRun(o, log[..m]);
    var i: nat, j: nat :| LastTwoReserved(log, i, j) && !RestedAfter(o, log[..i]) && !RestedAfter(o, log[..j]);
    SameTwo(log, m, n, i, j);
  }

  lemma SameTwo(log: seq<Event>, m: nat, n: nat, i: nat, j: nat)
    requires LastTwoReserved(log, m, n) && LastTwoReserved(log, i, j)
    ensures m == i && n == j
  {
    assert n == j;
    assert m == i;
  }

  // ------------------------------------------------------------------ nothing was undone in between

  /** No undoing write was sent since, unless the lease restores or was restored; and no time was turned back. */
  predicate SinceThen(u: World, v: World) {
    v.active.Some? && u.clock <= v.clock && (MayUndo(v.active.value) || v.lastUndo == u.lastUndo)
  }

  lemma SinceStep(u: World, v: World, e: Event)
    requires SinceThen(u, v) && ShapeOk(v, v.active.value) && Enabled(v, e) && !e.Reserve?
    ensures SinceThen(u, Next(v, e))
  {
    if e.SendRestore? { UndoIsKnown(v, e); } else { UndoOnlyRestores(v, e); }
  }

  lemma UndoIsKnown(v: World, e: Event)
    requires Enabled(v, e) && e.SendRestore?
    ensures Next(v, e).active == v.active && v.active.Some? && MayUndo(v.active.value) && Next(v, e).clock == v.clock
  {
  }

  lemma UndoOnlyRestores(v: World, e: Event)
    requires v.active.Some? && ShapeOk(v, v.active.value) && Enabled(v, e) && !e.Reserve? && !e.SendRestore?
    ensures Next(v, e).lastUndo == v.lastUndo && Next(v, e).active.Some? && v.clock <= Next(v, e).clock
    ensures MayUndo(v.active.value) ==> MayUndo(Next(v, e).active.value)
  {
  }

  lemma SinceNext(w: World, es: seq<Event>, u: World, i: nat)
    requires Init(w) && Legal(w, es) && i < |es| && SinceThen(u, At(w, es, i)) && !es[i].Reserve?
    ensures SinceThen(u, At(w, es, i + 1))
  {
    StepAt(w, es, i);
    PrefixLegal(w, es, i);
    AlwaysAlongRun(w, es[..i]);
    SinceStep(u, At(w, es, i), es[i]);
  }

  lemma {:induction false} SinceAlong(w: World, es: seq<Event>, u: World, i: nat, j: nat)
    requires Init(w) && Legal(w, es) && i <= j <= |es| && SinceThen(u, At(w, es, i))
    requires forall k :: i <= k < j ==> !es[k].Reserve?
    ensures SinceThen(u, At(w, es, j))
    decreases j
  {
    if i < j {
      SinceAlong(w, es, u, i, j - 1);
      SinceNext(w, es, u, j - 1);
    }
  }

  lemma SinceStart(w: World, es: seq<Event>, m: nat)
    requires Legal(w, es) && m < |es| && es[m].Reserve?
    ensures SinceThen(At(w, es, m), At(w, es, m + 1))
  {
    StepAt(w, es, m);
  }

  lemma SinceReserved(w: World, es: seq<Event>, m: nat, n: nat)
    requires Init(w) && Legal(w, es) && LastTwoReserved(es, m, n)
    ensures SinceThen(At(w, es, m), At(w, es, n))
  {
    SinceStart(w, es, m);
    SinceAlong(w, es, At(w, es, m), m + 1, n);
  }

  lemma LateNext(w: World, es: seq<Event>, i: nat)
    requires Init(w) && Legal(w, es) && i < |es| && Late(At(w, es, i)) && !es[i].Reserve?
    ensures Late(At(w, es, i + 1))
  {
    StepAt(w, es, i);
    PrefixLegal(w, es, i);
    AlwaysAlongRun(w, es[..i]);
    NextKeepsLate(At(w, es, i), es[i]);
  }

  lemma {:induction false} LateAlong(w: World, es: seq<Event>, i: nat, j: nat)
    requires Init(w) && Legal(w, es) && i <= j <= |es| && Late(At(w, es, i))
    requires forall k :: i <= k < j ==> !es[k].Reserve?
    ensures Late(At(w, es, j))
    decreases j
  {
    if i < j {
      LateAlong(w, es, i, j - 1);
      LateNext(w, es, j - 1);
    }
  }

  lemma ReleasedStart(w: World, es: seq<Event>, n: nat)
    requires Init(w) && Legal(w, es) && n < |es| && es[n].Reserve?
    requires At(w, es, n).active.Some? && Bound(At(w, es, n).active.value) && At(w, es, n).active.value.status == Released
    ensures Late(At(w, es, n + 1))
  {
    StepAt(w, es, n);
    PrefixLegal(w, es, n);
    AlwaysAlongRun(w, es[..n]);
    EarlyStart(At(w, es, n), es[n].scope);
  }

  /** A reservation after a lease that was bound and released keeps the zones, however early it comes. */
  lemma AfterReleased(w: World, es: seq<Event>, n: nat)
    requires Init(w) && Legal(w, es) && LastReserved(es, n)
    requires At(w, es, n).active.Some? && Bound(At(w, es, n).active.value) && At(w, es, n).active.value.status == Released
    ensures Late(At(w, es, |es|))
  {
    ReleasedStart(w, es, n);
    LateAlong(w, es, n + 1, |es|);
  }

  /** So the second of two early reservations came no sooner after the last undo than the first. */
  lemma GapsGrow(o: World, log: seq<Event>, w: World, m: nat, n: nat, gap: int, next: int)
    requires RunsTo(o, log, w) && ReservedTwice(o, log, m, n, gap, next) && OffBaseline(w)
    ensures gap <= next
  {
    RunEnds(o, log, w);
    SinceReserved(o, log, m, n);
    StepAt(o, log, n);
    assert log[..|log|] == log;
    if MayUndo(At(o, log, n).active.value) {
      AfterReleased(o, log, n);
      AlwaysNow(o, log, w);
      LateIsOnBaseline(w);
    }
  }

  lemma OnlyAfterTwoEarly(o: World, log: seq<Event>, w: World, m: nat, n: nat, gap: int, next: int)
    requires RunsTo(o, log, w) && ReservedTwice(o, log, m, n, gap, next) && OffBaseline(w)
    ensures 0 <= gap <= next < LIFETIME_MS
  {
    RunEnds(o, log, w);
    GapsGrow(o, log, w, m, n, gap, next);
    if !EarlyTwice(o, log) {
      LateAlongRun(o, log);
      AlwaysNow(o, log, w);
      LateIsOnBaseline(w);
    }
    EarlyGaps(o, log, m, n, gap, next);
  }

  // ------------------------------------------------------------------ the run: a third lease

  /** What the provider shows when the third lease is bound. */
  const LATER_ZONES: seq<Zone> := [Zone(COM_ZONE, [Route(ID, "pattern", Some(WORKER))]), Zone(RU_ZONE, [])]

  /** Reached by a run whose last two reservations came that long after the last undo. */
  ghost predicate ReachedTwice(w: World, gap: int, next: int) {
    exists log, m: nat, n: nat :: RunsTo(Start(), log, w) && ReservedTwice(Start(), log, m, n, gap, next)
  }

  lemma LongerTwice(o: World, log: seq<Event>, m: nat, n: nat, gap: int, next: int, e: Event)
    requires ReservedTwice(o, log, m, n, gap, next) && !e.Reserve?
    ensures ReservedTwice(o, log + [e], m, n, gap, next)
  {
    NotReserved(o, log, e);
    assert (log + [e])[..m] == log[..m] && (log + [e])[..n] == log[..n];
  }

  lemma GoesOnTwice(w: World, e: Event, gap: int, next: int)
    requires ReachedTwice(w, gap, next) && Enabled(w, e) && !e.Reserve?
    ensures ReachedTwice(Next(w, e), gap, next)
  {
    var log, m: nat, n: nat :| RunsTo(Start(), log, w) && ReservedTwice(Start(), log, m, n, gap, next);
    RunsOn(Start(), log, w, e);
    LongerTwice(Start(), log, m, n, gap, next, e);
  }

  lemma ReservesAgain(w: World, scope: Scope, gap: int, next: int)
    requires ReachedSince(w, gap) && Enabled(w, Reserve(scope)) && w.lastUndo == Some(w.clock - next)
    ensures ReachedTwice(Next(w, Reserve(scope)), gap, next)
  {
    var log, m: nat :| RunsTo(Start(), log, w) && ReservedAfter(Start(), log, m, gap);
    RunsOn(Start(), log, w, Reserve(scope));
    SecondIsReserved(Start(), log, w, m, Reserve(scope), gap, next);
  }

  lemma SecondIsReserved(o: World, log: seq<Event>, w: World, m: nat, e: Event, gap: int, next: int)
    requires RunsTo(o, log, w) && ReservedAfter(o, log, m, gap) && e.Reserve? && w.lastUndo == Some(w.clock - next)
    ensures ReservedTwice(o, log + [e], m, |log|, gap, next)
  {
    RunEnds(o, log, w);
    ReservedLast(o, log, e);
    assert (log + [e])[..|log|] == log && (log + [e])[..m] == log[..m];
  }

  /** The second lease, accepted and archived. */
  function Kept(gap: int): State {
    Lease("second", DUSK + gap).(status := Accepted, intents := [Intended(true, false)], acceptedReport := Some("report"))
  }

  /** Up to `next` after the undo the accepted lease is archived; the undo is still under way. */
  lemma SecondArchived(gap: int, next: int) returns (w: World)
    requires 0 <= gap <= next < LIFETIME_MS
    ensures ReachedSince(w, gap)
    ensures w == World(DUSK + next, Some(Kept(gap)), HISTORY["second" := Kept(gap)], w.alarm, Live(NEW_ROW), multiset{STRAY}, 4,
                       map[KeyFor("first") := DAWN, KeyFor("second") := DUSK + gap], Some(DUSK), false)
  {
    var a := SecondAccepted(gap);
    GoesOn(a, Tick(DUSK + next), gap);
    var b := Next(a, Tick(DUSK + next));
    GoesOn(b, Archive, gap);
    w := Next(b, Archive);
  }

  lemma ThirdReserved(gap: int, next: int) returns (w: World)
    requires 0 <= gap <= next < LIFETIME_MS
    ensures ReachedTwice(w, gap, next)
    ensures var at := DUSK + next;
            && w.clock == at && w.active == Some(NewLease(ScopeOf("third"), at)) && w.live == Live(NEW_ROW) && w.flying == multiset{STRAY}
  {
    var a := SecondArchived(gap, next);
    ThirdIsNew();
    ReservesAgain(a, ScopeOf("third"), gap, next);
    var b := Next(a, Reserve(ScopeOf("third")));
    GoesOnTwice(b, SetAlarm(b.clock + WINDOW_MS), gap, next);
    w := Next(b, SetAlarm(b.clock + WINDOW_MS));
  }

  lemma ThirdIsNew()
    ensures "third" != "first" && "third" != "second"
  {
    assert "third"[0] == 't' && "first"[0] == 'f' && "second"[0] == 's';
  }

  lemma LaterIsShown()
    ensures WellBound(PLAN, LATER_ZONES) && ShowsBaseline(LATER_ZONES, Live(NEW_ROW))
  {
    var r := Route(ID, "pattern", Some(WORKER));
    assert FindZone(LATER_ZONES, COM_ZONE) == Some(LATER_ZONES[0]);
    assert LATER_ZONES[0].routes[0] == r && r in LATER_ZONES[0].routes;
    assert GroundedChange(CHANGE, LATER_ZONES);
    assert |COM_ZONE| != |RU_ZONE|;
    TableOfOne(r);
  }

  /** It is bound over the zone that shows the second lease's route. */
  lemma ThirdBound(gap: int, next: int) returns (w: World)
    requires 0 <= gap <= next < LIFETIME_MS
    ensures ReachedTwice(w, gap, next)
    ensures w.active.Some? && w.active.value.baseline == Some(LATER_ZONES) && Bound(w.active.value) && w.active.value.intents == []
    ensures w.live == Live(NEW_ROW) && w.flying == multiset{STRAY}
  {
    var a := ThirdReserved(gap, next);
    LaterIsShown();
    GoesOnTwice(a, Bind(PLAN, LATER_ZONES), gap, next);
    var b := Next(a, Bind(PLAN, LATER_ZONES));
    GoesOnTwice(b, SetAlarm(b.clock + WINDOW_MS), gap, next);
    w := Next(b, SetAlarm(b.clock + WINDOW_MS));
  }

  /** The undo of the first lease arrives: the third lease has saved no intent, and still a zone of it is
      not its baseline. */
  lemma Astray(gap: int, next: int) returns (w: World)
    requires 0 <= gap <= next < LIFETIME_MS
    ensures ReachedTwice(w, gap, next) && OffBaseline(w)
  {
    var a := ThirdBound(gap, next);
    PutIsLanded(NEW_ROW, STRAY, RouteId(a.issued));
    GoesOnTwice(a, Land(STRAY), gap, next);
    w := Next(a, Land(STRAY));
    ZoneIsOff(w);
  }

  lemma ZoneIsOff(w: World)
    requires w.active.Some? && w.active.value.baseline == Some(LATER_ZONES) && Bound(w.active.value) && w.active.value.intents == []
    requires w.live == Live(OLD_ROW)
    ensures OffBaseline(w)
  {
    var zone := LATER_ZONES[0];
    TableOfOne(zone.routes[0]);
    assert |COM_ZONE| != |RU_ZONE|;
    assert w.live[zone.id] == map[ID := OLD_ROW] && TableOf(zone.routes) == map[ID := NEW_ROW];
    forall on ensures !ShowsSubset(w.active.value, zone, w.live[zone.id], on) {
      assert (forall k :: k !in on) ==> ID !in on.Values;
    }
    assert ZoneOff(w, 0);
  }

  /** A run in which the last two leases were reserved `gap` and `next` after the last undoing write before
      them can leave a zone that is not its baseline with saved intents applied, exactly when both gaps are
      shorter than a request's lifetime and the second is no shorter than the first. */
  lemma TwoEarlyReservationsExactly(gap: int, next: int)
    ensures (exists o, log, w, m: nat, n: nat :: RunsTo(o, log, w) && ReservedTwice(o, log, m, n, gap, next) && OffBaseline(w))
            <==> 0 <= gap <= next < LIFETIME_MS
  {
    if o, log, w, m: nat, n: nat :| RunsTo(o, log, w) && ReservedTwice(o, log, m, n, gap, next) && OffBaseline(w) {
      OnlyAfterTwoEarly(o, log, w, m, n, gap, next);
    }
    if 0 <= gap <= next < LIFETIME_MS {
      var w := Astray(gap, next);
      var log, m: nat, n: nat :| RunsTo(Start(), log, w) && ReservedTwice(Start(), log, m, n, gap, next);
    }
  }
}
