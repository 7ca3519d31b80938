/** The route-cutover protocol: what is durable, what the provider holds, and every event that
    may change either. A crash needs no event of its own: a handler that stops half way leaves the
    world exactly as its last event left it. */
module WatchdogProtocol {
  import opened Options
  import opened Routes

  type OpId = string

  const LEASE_MS := 1_800_000
  const WINDOW_MS := 600_000
  const BIND_MS := 300_000
  const ROLLBACK_MS := 120_000
  const FENCE_MS := 60_000
  /** Assumed of the network: a request reaches the provider, or dies, in less than the fence's time. */
  const LIFETIME_MS := FENCE_MS
  const WAKE_MS := 100
  const RETRY_MS := 30_000
  const FAILED_MS := 15_000
  const HOSTS := 2
  const COM_ZONE := "f0ac7af0721419e8129e5d10ff547372"

  datatype Scope = Scope(operationId: OpId, leaseId: string, baselineSha256: string, zoneIds: seq<ZoneId>)

  datatype Plan = Plan(workerName: string, routes: seq<Change>)

  datatype Status = Reserved | Armed | Restoring | Restored | ReconciliationRequired | Accepted | Released

  /** The stored "active" record. Absent indices are the undefined members of the source. */
  datatype State = State(
    scope: Scope, reservedAt: int, expiresAt: int, deadline: int, status: Status,
    plan: Option<Plan>, baseline: Option<seq<Zone>>, intents: seq<Intent>, cleanReads: nat,
    restoreIndex: Option<int>, verifyIndex: nat, originIndex: nat, roundFailed: bool,
    restoredAt: Option<int>, acceptedReport: Option<string>)

  datatype Request =
    | Put(zone: ZoneId, id: RouteId, row: Row)
    | Post(zone: ZoneId, row: Row)
    | Delete(zone: ZoneId, id: RouteId)

  /** A request in the network, and when it was sent. */
  datatype Flight = Flight(req: Request, at: int)

  /** A forward write, named by the operation and the planned (zone, pattern). */
  datatype Key = Key(op: OpId, zone: ZoneId, pattern: string)

  /** The time, durable storage, the provider's real tables, the requests still in the network, how
      many route ids the provider has issued, and two ledgers: the forward writes ever sent, each with
      its time, and when an undoing write was last sent. `readBack`: the restoring wake at work has read
      the zone it compares back to its baseline. */
  datatype World = World(
    clock: int, active: Option<State>, history: map<OpId, State>, alarm: Option<int>,
    live: map<ZoneId, Table>, flying: multiset<Flight>, issued: nat, sent: map<Key, int>, lastUndo: Option<int>,
    readBack: bool)

  datatype Event =
    | Tick(to: int)
    | Archive
    | Reserve(scope: Scope)
    | SetAlarm(at: int)
    | ClearAlarm
    | Bind(plan: Plan, zones: seq<Zone>)
    | SaveIntent(change: Change)
    | SendForward
    | Land(flight: Flight)
    | Vanish(flight: Flight)
    | Ack(k: nat, id: RouteId)
    | MarkFailed
    | FreeUnbound
    | StartRound
    | NoteId(k: nat, id: RouteId)
    | SendRestore(req: Request)
    | ReadBack
    | Wake(ok: bool)
    | Accept(report: string)
    | Release

  predicate ScopeOk(scope: Scope) {
    && 1 <= |scope.zoneIds| <= 2 && COM_ZONE in scope.zoneIds
    && forall a, b :: 0 <= a < b < |scope.zoneIds| ==> scope.zoneIds[a] != scope.zoneIds[b]
  }

  predicate Finished(s: State) { s.status == Accepted || s.status == Released }

  predicate Bound(s: State) { s.plan.Some? && s.baseline.Some? }

  function NewLease(scope: Scope, now: int): State {
    State(scope, now, now + LEASE_MS, now + WINDOW_MS, Reserved, None, None, [], 0, None, 0, 0, false, None, None)
  }

  function StartedRound(s: State): State {
    s.(status := Restoring, restoreIndex := Some(|s.intents| - 1), verifyIndex := 0, originIndex := 0, roundFailed := false)
  }

  function WorkerRow(s: State, k: nat): Row
    requires Bound(s) && k < |s.intents|
  {
    Row(s.intents[k].change.pattern, Some(s.plan.value.workerName))
  }

  /** The one provider call that carries intent k forward. */
  function Forward(s: State, k: nat): Request
    requires Bound(s) && k < |s.intents|
  {
    var i := s.intents[k];
    if i.before.Some? then Put(i.change.zoneId, i.before.value.id, WorkerRow(s, k)) else Post(i.change.zoneId, WorkerRow(s, k))
  }

  /** The forward write of intent k as it flies once it has been sent. */
  function ForwardFlight(sent: map<Key, int>, s: State, k: nat): Flight
    requires Bound(s) && k < |s.intents| && KeyOf(s, s.intents[k].change) in sent
  {
    Flight(Forward(s, k), sent[KeyOf(s, s.intents[k].change)])
  }

  /** How often it flies. */
  function Copies(w: World, s: State, k: nat): nat
    requires Bound(s) && k < |s.intents|
  {
    if KeyOf(s, s.intents[k].change) in w.sent then w.flying[ForwardFlight(w.sent, s, k)] else 0
  }

  function KeyOf(s: State, c: Change): Key { Key(s.scope.operationId, c.zoneId, c.pattern) }

  predicate SameKey(a: Change, b: Change) { a.zoneId == b.zoneId && a.pattern == b.pattern }

  predicate HasIntent(s: State, c: Change) {
    exists k :: 0 <= k < |s.intents| && SameKey(s.intents[k].change, c)
  }

  /** `zone.routes.find(r => r.id === change.baselineRouteId) ?? null`. */
  function BeforeOf(zones: seq<Zone>, c: Change): Option<Route> {
    var z := FindZone(zones, c.zoneId);
    if z.None? || c.baselineRouteId.None? then None else FindRoute(z.value.routes, c.baselineRouteId.value)
  }

  predicate RestoringRoutes(s: State) { s.restoreIndex.Some? && 0 <= s.restoreIndex.value < |s.intents| }

  predicate VerifyingZones(s: State)
    requires Bound(s)
  {
    !RestoringRoutes(s) && s.verifyIndex < |s.baseline.value|
  }

  predicate ProbingHosts(s: State)
    requires Bound(s)
  {
    !RestoringRoutes(s) && s.verifyIndex >= |s.baseline.value| && s.originIndex < HOSTS
  }

  /** The durable record after one completed restoring wake whose outside work went `ok`. */
  function AfterWake(s: State, ok: bool, now: int): State
    requires Bound(s)
  {
    if RestoringRoutes(s) then
      var i := s.restoreIndex.value;
      s.(intents := if ok then s.intents[i := s.intents[i].(restored := true)] else s.intents,
         roundFailed := s.roundFailed || !ok, restoreIndex := Some(i - 1))
    else if s.verifyIndex < |s.baseline.value| then
      s.(roundFailed := s.roundFailed || !ok, verifyIndex := s.verifyIndex + 1)
    else if s.originIndex < HOSTS then
      s.(roundFailed := s.roundFailed || !ok, originIndex := s.originIndex + 1)
    else if s.roundFailed then
      s.(status := ReconciliationRequired, cleanReads := 0)
    else
      s.(status := Restored, cleanReads := s.cleanReads + 1,
         restoredAt := if s.restoredAt.Some? then s.restoredAt else Some(now))
  }

  /** How the provider treats a request when it arrives: refused unless it names a listed route
      and keeps patterns unique; a created route gets an id never issued before. */
  function Landed(live: map<ZoneId, Table>, req: Request, issued: RouteId): map<ZoneId, Table> {
    if req.zone !in live then live
    else
      var t := live[req.zone];
      match req
      case Put(z, id, row) =>
        if id in t && forall other :: other in t && other != id ==> t[other].pattern != row.pattern
        then live[z := t[id := row]] else live
      case Post(z, row) =>
        if issued !in t && forall other :: other in t ==> t[other].pattern != row.pattern
        then live[z := t[issued := row]] else live
      case Delete(z, id) => live[z := t - {id}]
  }

  ghost predicate WellBound(plan: Plan, zones: seq<Zone>) {
    && (forall a, b :: 0 <= a < b < |zones| ==> zones[a].id != zones[b].id)
    && (forall a :: 0 <= a < |zones| ==> Distinct(zones[a].routes))
    && (forall c :: 0 <= c < |plan.routes| ==> GroundedChange(plan.routes[c], zones))
    && (forall c, d :: 0 <= c < d < |plan.routes| ==> !SameKey(plan.routes[c], plan.routes[d]))
  }

  /** A change replaces a listed baseline route of the same pattern, or adds an absent pattern. */
  predicate GroundedChange(c: Change, zones: seq<Zone>) {
    var z := FindZone(zones, c.zoneId);
    && z.Some?
    && (if c.baselineRouteId.None? then forall r :: r in z.value.routes ==> r.pattern != c.pattern
        else exists r :: r in z.value.routes && r.id == c.baselineRouteId.value && r.pattern == c.pattern)
  }

  /** A request that undoes one intent. */
  ghost predicate Undoes(s: State, req: Request)
    requires Bound(s)
  {
    match req
    case Put(z, id, row) => exists k :: Replaces(s, k, z, id) && row == s.intents[k].before.value.ToRow()
    case Post(_, _) => false
    case Delete(z, id) => exists k :: Creates(s, k, z) && s.intents[k].id == Some(id)
  }

  ghost predicate Replaces(s: State, k: int, z: ZoneId, id: RouteId) {
    0 <= k < |s.intents| && s.intents[k].change.zoneId == z && s.intents[k].before.Some? && s.intents[k].before.value.id == id
  }

  ghost predicate Creates(s: State, k: int, z: ZoneId) {
    0 <= k < |s.intents| && s.intents[k].change.zoneId == z && s.intents[k].before.None?
  }

  ghost predicate BaseId(s: State, id: RouteId)
    requires Bound(s)
  {
    exists a :: 0 <= a < |s.baseline.value| && id in TableOf(s.baseline.value[a].routes)
  }

  predicate AllAcked(s: State) { forall k :: 0 <= k < |s.intents| ==> s.intents[k].id.Some? }

  /** Every zone shows the baseline with every intent applied and nothing else. */
  ghost predicate ShowsPlan(s: State, live: map<ZoneId, Table>)
    requires Bound(s) && AllAcked(s)
  {
    forall a :: 0 <= a < |s.baseline.value| ==>
      var z := s.baseline.value[a];
      z.id in live && live[z.id] == Applied(TableOf(z.routes), z.id, s.intents, s.plan.value.workerName)
  }

  ghost predicate ShowsBaseline(zones: seq<Zone>, live: map<ZoneId, Table>) {
    forall a :: 0 <= a < |zones| ==> zones[a].id in live && live[zones[a].id] == TableOf(zones[a].routes)
  }

  ghost predicate Enabled(w: World, e: Event) {
    match e
    case Tick(to) => w.clock <= to && AliveAt(w.flying, to)
    case Archive => w.active.Some? && Finished(w.active.value)
    case Reserve(scope) =>
      && ScopeOk(scope) && scope.operationId !in w.history
      && (w.active.Some? ==> Finished(w.active.value) && w.active.value.scope.operationId in w.history)
    case SetAlarm(at) => true
    case ClearAlarm => w.active.None? || Finished(w.active.value)
    case Bind(plan, zones) =>
      && w.active.Some? && w.active.value.status == Reserved && w.clock + WINDOW_MS + ROLLBACK_MS < w.active.value.expiresAt
      && WellBound(plan, zones) && ShowsBaseline(zones, w.live)
    case SaveIntent(c) =>
      && w.active.Some? && Bound(w.active.value) && w.active.value.status == Armed
      && c in w.active.value.plan.value.routes && !HasIntent(w.active.value, c)
    case SendForward =>
      && w.active.Some? && Bound(w.active.value) && w.active.value.status == Armed
      && JustSaved(w.active.value) && KeyOf(w.active.value, w.active.value.intents[|w.active.value.intents| - 1].change) !in w.sent
    case Land(flight) => flight in w.flying
    case Vanish(flight) => flight in w.flying
    case Ack(k, id) =>
      && w.active.Some? && Bound(w.active.value) && w.active.value.status == Armed
      && k < |w.active.value.intents| && w.active.value.intents[k].id.None?
      && RowApplied(w.active.value, w.live, k, id) && Copies(w, w.active.value, k) == 0
    case MarkFailed => w.active.Some? && w.active.value.status == Armed
    case FreeUnbound => w.active.Some? && !Bound(w.active.value)
    case StartRound => w.active.Some? && Bound(w.active.value)
    case NoteId(k, id) =>
      && w.active.Some? && Bound(w.active.value) && w.active.value.status == Restoring
      && k < |w.active.value.intents| && w.active.value.intents[k].before.None? && RowApplied(w.active.value, w.live, k, id)
    case SendRestore(req) =>
      w.active.Some? && Bound(w.active.value) && w.active.value.status == Restoring && Undoes(w.active.value, req)
    case ReadBack => RoundOn(w) && VerifyingZones(w.active.value) && ZoneBack(w, w.active.value.verifyIndex)
    case Wake(ok) => RoundOn(w) && (ok && VerifyingZones(w.active.value) ==> w.readBack)
    case Accept(report) =>
      && w.active.Some? && Bound(w.active.value) && w.active.value.status == Armed && w.clock <= w.active.value.deadline
      && FullyApplied(w.active.value, w.live)
    case Release =>
      && w.active.Some? && Outlasted(w.active.value, w.clock)
      && ShowsBaseline(w.active.value.baseline.value, w.live)
  }

  /** A restore round is on. */
  predicate RoundOn(w: World) { w.active.Some? && Bound(w.active.value) && w.active.value.status == Restoring }

  /** The provider lists zone a of the lease exactly as the baseline has it. */
  predicate ZoneBack(w: World, a: nat) {
    && w.active.Some? && Bound(w.active.value) && a < |w.active.value.baseline.value|
    && var zone := w.active.value.baseline.value[a];
       zone.id in w.live && w.live[zone.id] == TableOf(zone.routes)
  }

  /** No request in the network would by then have lived too long. */
  predicate AliveAt(flying: multiset<Flight>, to: int) { forall f :: f in flying ==> to < f.at + LIFETIME_MS }

  /** The wait before a restored lease may be let go. */
  predicate Outlasted(s: State, now: int) {
    && Bound(s) && s.status == Restored && s.cleanReads >= 3
    && s.restoredAt.Some? && now - s.restoredAt.value >= FENCE_MS
  }

  predicate JustSaved(s: State) { s.intents != [] && s.intents[|s.intents| - 1].id.None? }

  ghost predicate FullyApplied(s: State, live: map<ZoneId, Table>)
    requires Bound(s)
  {
    |s.intents| == |s.plan.value.routes| && AllAcked(s) && ShowsPlan(s, live)
  }

  /** The provider shows intent k applied under `id`. */
  ghost predicate RowApplied(s: State, live: map<ZoneId, Table>, k: nat, id: RouteId)
    requires Bound(s) && k < |s.intents|
  {
    var i := s.intents[k];
    && i.change.zoneId in live && id in live[i.change.zoneId] && live[i.change.zoneId][id] == WorkerRow(s, k)
    && (if i.before.Some? then id == i.before.value.id else !BaseId(s, id))
  }

  function Next(w: World, e: Event): World
    requires Enabled(w, e)
  {
    match e
    case Tick(to) => w.(clock := to)
    case Archive => w.(history := w.history[w.active.value.scope.operationId := w.active.value])
    case Reserve(scope) => w.(active := Some(NewLease(scope, w.clock)))
    case SetAlarm(at) => w.(alarm := Some(at))
    case ClearAlarm => w.(alarm := None)
    case Bind(plan, zones) =>
      w.(active := Some(w.active.value.(plan := Some(plan), baseline := Some(zones), status := Armed, deadline := w.clock + WINDOW_MS)))
    case SaveIntent(c) =>
      var s := w.active.value;
      w.(active := Some(s.(intents := s.intents + [Intent(c, BeforeOf(s.baseline.value, c), None, false)])))
    case SendForward =>
      var s := w.active.value;
      w.(flying := w.flying + multiset{Flight(Forward(s, |s.intents| - 1), w.clock)},
         sent := w.sent[KeyOf(s, s.intents[|s.intents| - 1].change) := w.clock])
    case Land(flight) =>
      w.(live := Landed(w.live, flight.req, RouteId(w.issued)), flying := w.flying - multiset{flight}, issued := w.issued + 1)
    case Vanish(flight) => w.(flying := w.flying - multiset{flight})
    case Ack(k, id) =>
      var s := w.active.value;
      w.(active := Some(s.(intents := s.intents[k := s.intents[k].(id := Some(id))])))
    case MarkFailed => w.(active := Some(w.active.value.(status := Restoring)))
    case FreeUnbound => w.(active := Some(w.active.value.(status := Released)))
    case StartRound => w.(active := Some(StartedRound(w.active.value)), readBack := false)
    case NoteId(k, id) =>
      var s := w.active.value;
      w.(active := Some(s.(intents := s.intents[k := s.intents[k].(id := Some(id))])))
    case SendRestore(req) => w.(flying := w.flying + multiset{Flight(req, w.clock)}, lastUndo := Some(w.clock))
    case ReadBack => w.(readBack := true)
    case Wake(ok) => w.(active := Some(AfterWake(w.active.value, ok, w.clock)), readBack := false)
    case Accept(report) => w.(active := Some(w.active.value.(status := Accepted, acceptedReport := Some(report))))
    case Release => w.(active := Some(w.active.value.(status := Released)))
  }

  /** The lifetime of a request has passed since an undoing write was last sent. */
  predicate Rested(w: World) { w.lastUndo.Some? ==> w.lastUndo.value + LIFETIME_MS <= w.clock }

  /** Nothing is stored, nothing flies, every listed id has been issued. */
  ghost predicate Init(w: World) {
    && w.active.None? && w.history == map[] && w.alarm.None? && w.flying == multiset{} && w.sent == map[] && w.lastUndo.None? && !w.readBack
    && LiveSane(w)
  }

  ghost predicate LiveSane(w: World) {
    forall z :: z in w.live ==> UniquePatterns(w.live[z]) && forall id :: id in w.live[z] ==> id.n < w.issued
  }

  /** The world after the events happened one after another from `w`; None once one of them
      was not enabled when its turn came. */
  ghost function After(w: World, es: seq<Event>): Option<World> {
    if es == [] then Some(w)
    else
      var before := After(w, es[..|es| - 1]);
      var e := es[|es| - 1];
      if before.Some? && Enabled(before.value, e) then Some(Next(before.value, e)) else None
  }

  /** A run: every prefix of it is one too. */
  ghost predicate Legal(w: World, es: seq<Event>) { After(w, es).Some? }

  lemma {:induction false} PrefixLegal(w: World, es: seq<Event>, n: nat)
    requires Legal(w, es) && n <= |es|
    ensures Legal(w, es[..n])
    ensures n < |es| ==> Enabled(After(w, es[..n]).value, es[n]) && After(w, es[..n + 1]) == Some(Next(After(w, es[..n]).value, es[n]))
  {
    if n < |es| {
      if n < |es| - 1 {
        PrefixLegal(w, es[..|es| - 1], n);
        assert es[..|es| - 1][..n] == es[..n];
        assert es[..|es| - 1][..n + 1] == es[..n + 1];
      } else {
        assert es[..n + 1] == es;
      }
    } else {
      assert es[..n] == es;
    }
  }

  lemma OneMore(w: World, es: seq<Event>, e: Event)
    requires Legal(w, es) && Enabled(After(w, es).value, e)
    ensures After(w, es + [e]) == Some(Next(After(w, es).value, e))
  {
    assert (es + [e])[..|es|] == es;
  }

  /** Every prefix of the log is a run from `o`, and the whole of it leads to `w`. */
  ghost predicate RunsTo(o: World, log: seq<Event>, w: World) {
    && Init(o)
    && forall n :: 0 <= n <= |log| ==> After(o, log[..n]).Some? && (n == |log| ==> After(o, log[..n]).value == w)
  }

  lemma EmptyRun(o: World)
    requires Init(o)
    ensures RunsTo(o, [], o)
  {
    var none: seq<Event> := [];
    forall n | 0 <= n <= |none| ensures After(o, none[..n]) == Some(o) {
      assert none[..n] == none;
    }
  }

  lemma RunsOn(o: World, log: seq<Event>, w: World, e: Event)
    requires RunsTo(o, log, w) && Enabled(w, e)
    ensures RunsTo(o, log + [e], Next(w, e))
  {
    RunEnds(o, log, w);
    OneMore(o, log, e);
    forall n | 0 <= n <= |log + [e]|
      ensures After(o, (log + [e])[..n]).Some? && (n == |log + [e]| ==> After(o, (log + [e])[..n]).value == Next(w, e))
    {
      if n <= |log| {
        assert (log + [e])[..n] == log[..n];
      } else {
        assert (log + [e])[..n] == log + [e];
      }
    }
  }

  lemma RunEnds(o: World, log: seq<Event>, w: World)
    requires RunsTo(o, log, w)
    ensures Init(o) && After(o, log) == Some(w)
  {
    assert log[..|log|] == log;
  }

  /** Event n is the last reservation. */
  predicate LastReserved(log: seq<Event>, n: nat) {
    n < |log| && log[n].Reserve? && forall m :: n < m < |log| ==> !log[m].Reserve?
  }

  /** The last reservation of the run came a request's lifetime after the last undoing write. The code
      does not ask for this; whoever reserves the next lease has to wait. */
  ghost predicate Careful(o: World, log: seq<Event>) {
    forall n: nat :: LastReserved(log, n) ==> RestedAfter(o, log[..n])
  }

  ghost predicate RestedAfter(o: World, es: seq<Event>) { After(o, es).Some? ==> Rested(After(o, es).value) }

  /** A run whose last reservation was careful. */
  ghost predicate CarefulTo(o: World, log: seq<Event>, w: World) { RunsTo(o, log, w) && Careful(o, log) }

  lemma StaysCareful(o: World, log: seq<Event>, w: World, e: Event)
    requires RunsTo(o, log, w) && Enabled(w, e) && (if e.Reserve? then Rested(w) else Careful(o, log))
    ensures CarefulTo(o, log + [e], Next(w, e))
  {
    RunsOn(o, log, w, e);
    RunEnds(o, log, w);
    if e.Reserve? { ReservedLast(o, log, e); } else { NotReserved(o, log, e); }
  }

  lemma ReservedLast(o: World, log: seq<Event>, e: Event)
    requires e.Reserve?
    ensures LastReserved(log + [e], |log|) && (Careful(o, log + [e]) <==> RestedAfter(o, log))
  {
    assert (log + [e])[|log|] == e && (log + [e])[..|log|] == log;
  }

  lemma NotReserved(o: World, log: seq<Event>, e: Event)
    requires !e.Reserve?
    ensures Careful(o, log + [e]) <==> Careful(o, log)
    ensures forall n: nat :: LastReserved(log + [e], n) <==> LastReserved(log, n)
  {
    forall n: nat ensures LastReserved(log + [e], n) <==> LastReserved(log, n) {
      SameLast(log, e, n);
    }
    assert forall n: nat :: LastReserved(log, n) ==> (log + [e])[..n] == log[..n];
  }

  lemma SameLast(log: seq<Event>, e: Event, n: nat)
    requires !e.Reserve?
    ensures LastReserved(log + [e], n) <==> LastReserved(log, n)
  {
    assert forall m :: 0 <= m < |log| ==> (log + [e])[m] == log[m];
    assert (log + [e])[|log|] == e;
  }
}
