/** Zone routes as the provider lists them, and the array surgery the watchdog does on them. */
module Routes {
  import opened Options

  /** Route ids are opaque; the n-th id the provider ever issued is called n. */
  datatype RouteId = RouteId(n: nat)
  type ZoneId = string

  datatype Row = Row(pattern: string, script: Option<string>)

  datatype Route = Route(id: RouteId, pattern: string, script: Option<string>) {
    function ToRow(): Row { Row(pattern, script) }
  }

  /** What the provider stores for one zone. */
  type Table = map<RouteId, Row>

  datatype Zone = Zone(id: ZoneId, routes: seq<Route>)

  /** One planned replacement (or addition, when no baseline route is named). */
  datatype Change = Change(zoneId: ZoneId, pattern: string, baselineRouteId: Option<RouteId>)

  /** The durable record of one forward write. */
  datatype Intent = Intent(change: Change, before: Option<Route>, id: Option<RouteId>, restored: bool)

  predicate Distinct(rows: seq<Route>) {
    forall i, j :: 0 <= i < j < |rows| ==> rows[i].id != rows[j].id && rows[i].pattern != rows[j].pattern
  }

  ghost predicate UniquePatterns(t: Table) {
    forall a, b :: a in t && b in t && t[a].pattern == t[b].pattern ==> a == b
  }

  function TableOf(rows: seq<Route>): Table {
    if rows == [] then map[]
    else var r := rows[|rows| - 1]; TableOf(rows[..|rows| - 1])[r.id := r.ToRow()]
  }

  /** Two listings compare equal after sorting: same rows, any order. */
  predicate SameRows(a: seq<Route>, b: seq<Route>) {
    multiset(a) == multiset(b)
  }

  lemma {:induction false} TableHolds(rows: seq<Route>)
    requires Distinct(rows)
    ensures forall i :: 0 <= i < |rows| ==> rows[i].id in TableOf(rows) && TableOf(rows)[rows[i].id] == rows[i].ToRow()
    ensures forall id :: id in TableOf(rows) ==> exists i :: 0 <= i < |rows| && rows[i].id == id
  {
    if rows != [] {
      TableHolds(rows[..|rows| - 1]);
    }
  }

  lemma {:induction false} Multiplicity(rows: seq<Route>, r: Route)
    requires Distinct(rows)
    ensures multiset(rows)[r] == if r in rows then 1 else 0
  {
    if rows != [] {
      var n := |rows| - 1;
      assert rows == rows[..n] + [rows[n]];
      Multiplicity(rows[..n], r);
    }
  }

  /** For listings without repeated ids, comparing sorted arrays is comparing tables. */
  lemma SameRowsIffSameTable(a: seq<Route>, b: seq<Route>)
    requires Distinct(a) && Distinct(b)
    ensures SameRows(a, b) <==> TableOf(a) == TableOf(b)
  {
    if SameRows(a, b) {
      SameRowsSameTable(a, b);
    }
    if TableOf(a) == TableOf(b) {
      SameTableSameMembers(a, b);
      SameTableSameMembers(b, a);
      forall r: Route ensures multiset(a)[r] == multiset(b)[r] {
        Multiplicity(a, r);
        Multiplicity(b, r);
      }
    }
  }

  lemma SameRowsSameTable(a: seq<Route>, b: seq<Route>)
    requires Distinct(a) && Distinct(b) && SameRows(a, b)
    ensures TableOf(a) == TableOf(b)
  {
    SameRowsSubtable(a, b);
    SameRowsSubtable(b, a);
  }

  lemma SameRowsSubtable(a: seq<Route>, b: seq<Route>)
    requires Distinct(a) && Distinct(b) && SameRows(a, b)
    ensures forall id :: id in TableOf(a) ==> id in TableOf(b) && TableOf(b)[id] == TableOf(a)[id]
  {
    TableHolds(a);
    TableHolds(b);
    forall id | id in TableOf(a) ensures id in TableOf(b) && TableOf(b)[id] == TableOf(a)[id] {
      var i :| 0 <= i < |a| && a[i].id == id;
      assert a[i] in multiset(b);
      var j :| 0 <= j < |b| && b[j] == a[i];
    }
  }

  /** A listing that compares equal to one without repeated ids has none either. */
  lemma SameRowsDistinct(a: seq<Route>, b: seq<Route>)
    requires Distinct(a) && SameRows(a, b)
    ensures Distinct(b)
  {
    forall i, j | 0 <= i < j < |b| ensures b[i].id != b[j].id && b[i].pattern != b[j].pattern {
      assert b[i] in multiset(a) && b[j] in multiset(a);
      var p :| 0 <= p < |a| && a[p] == b[i];
      var q :| 0 <= q < |a| && a[q] == b[j];
      assert p != q by {
        Multiplicity(a, b[i]);
        assert b == b[..j] + [b[j]] + b[j + 1..];
        assert multiset(b) == multiset(b[..j]) + multiset([b[j]]) + multiset(b[j + 1..]);
        assert b[..j][i] == b[i];
        assert multiset(b[..j])[b[i]] >= 1;
      }
    }
  }

  lemma SameTableSameMembers(a: seq<Route>, b: seq<Route>)
    requires Distinct(a) && Distinct(b) && TableOf(a) == TableOf(b)
    ensures forall r :: r in a ==> r in b
  {
    TableHolds(a);
    TableHolds(b);
    forall r | r in a ensures r in b {
      var i :| 0 <= i < |a| && a[i] == r;
      var j :| 0 <= j < |b| && b[j].id == r.id;
      assert b[j].ToRow() == r.ToRow();
    }
  }

  function FindRoute(rows: seq<Route>, id: RouteId): Option<Route> {
    if rows == [] then None
    else if rows[0].id == id then Some(rows[0])
    else FindRoute(rows[1..], id)
  }

  lemma {:induction false} FindRouteHits(rows: seq<Route>, id: RouteId)
    ensures FindRoute(rows, id).Some? ==> FindRoute(rows, id).value in rows && FindRoute(rows, id).value.id == id
    ensures FindRoute(rows, id).None? ==> forall i :: 0 <= i < |rows| ==> rows[i].id != id
  {
    if rows != [] && rows[0].id != id {
      FindRouteHits(rows[1..], id);
      forall i | 0 <= i < |rows| && FindRoute(rows, id).None? ensures rows[i].id != id {
        if i > 0 { assert rows[i] == rows[1..][i - 1]; }
      }
    }
  }

  /** Looking a route up in a listing is looking it up in the table it lists. */
  lemma FindRouteInTable(rows: seq<Route>, id: RouteId)
    requires Distinct(rows)
    ensures FindRoute(rows, id).Some? <==> id in TableOf(rows)
    ensures FindRoute(rows, id).Some? ==> var r := FindRoute(rows, id).value; r.id == id && r.ToRow() == TableOf(rows)[id]
  {
    FindRouteHits(rows, id);
    TableHolds(rows);
  }

  function FindPattern(rows: seq<Route>, pattern: string): Option<Route> {
    if rows == [] then None
    else if rows[0].pattern == pattern then Some(rows[0])
    else FindPattern(rows[1..], pattern)
  }

  lemma {:induction false} FindPatternHits(rows: seq<Route>, pattern: string)
    ensures FindPattern(rows, pattern).Some? ==> FindPattern(rows, pattern).value in rows && FindPattern(rows, pattern).value.pattern == pattern
    ensures FindPattern(rows, pattern).None? ==> forall i :: 0 <= i < |rows| ==> rows[i].pattern != pattern
  {
    if rows != [] && rows[0].pattern != pattern {
      FindPatternHits(rows[1..], pattern);
      assert forall i :: 0 < i < |rows| ==> rows[i] == rows[1..][i - 1];
    }
  }

  /** A pattern looked up in a listing: the one route of the table that has it. */
  lemma FindPatternInTable(rows: seq<Route>, pattern: string)
    requires Distinct(rows)
    ensures var r := FindPattern(rows, pattern);
            if r.Some? then r.value.id in TableOf(rows) && r.value.ToRow() == TableOf(rows)[r.value.id] && r.value.pattern == pattern
            else forall id :: id in TableOf(rows) ==> TableOf(rows)[id].pattern != pattern
  {
    FindPatternHits(rows, pattern);
    TableHolds(rows);
  }

  function FindZone(zones: seq<Zone>, id: ZoneId): Option<Zone> {
    if zones == [] then None
    else if zones[0].id == id then Some(zones[0])
    else FindZone(zones[1..], id)
  }

  lemma {:induction false} FindZoneHits(zones: seq<Zone>, id: ZoneId)
    ensures FindZone(zones, id).Some? ==> FindZone(zones, id).value in zones && FindZone(zones, id).value.id == id
    ensures FindZone(zones, id).None? ==> forall i :: 0 <= i < |zones| ==> zones[i].id != id
  {
    if zones != [] && zones[0].id != id {
      FindZoneHits(zones[1..], id);
      forall i | 0 <= i < |zones| && FindZone(zones, id).None? ensures zones[i].id != id {
        if i > 0 { assert zones[i] == zones[1..][i - 1]; }
      }
    }
  }

  /** `findIndex` by id: the first position, or -1. */
  function FindIndex(rows: seq<Route>, id: RouteId): int {
    if rows == [] then -1
    else if rows[0].id == id then 0
    else var i := FindIndex(rows[1..], id); if i < 0 then -1 else i + 1
  }

  lemma {:induction false} FindIndexHits(rows: seq<Route>, id: RouteId)
    ensures -1 <= FindIndex(rows, id) < |rows|
    ensures FindIndex(rows, id) >= 0 ==> rows[FindIndex(rows, id)].id == id
    ensures FindIndex(rows, id) == -1 <==> forall i :: 0 <= i < |rows| ==> rows[i].id != id
  {
    if rows != [] && rows[0].id != id {
      FindIndexHits(rows[1..], id);
      if FindIndex(rows, id) == -1 {
        forall i | 0 <= i < |rows| ensures rows[i].id != id {
          if i > 0 { assert rows[i] == rows[1..][i - 1]; }
        }
      }
    }
  }

  /** `rows.splice(at, 1, r)`: a negative position counts from the end, so -1 hits the last row. */
  function SpliceOne(rows: seq<Route>, at: int, r: Route): seq<Route> {
    var start := if at < 0 then (if |rows| + at > 0 then |rows| + at else 0) else (if at < |rows| then at else |rows|);
    rows[..start] + [r] + (if start < |rows| then rows[start + 1..] else [])
  }

  function WorkerRoute(i: Intent, worker: string): Route
    requires i.id.Some?
  {
    Route(i.id.value, i.change.pattern, Some(worker))
  }

  function ExpectedOne(rows: seq<Route>, i: Intent, worker: string): seq<Route>
    requires i.id.Some?
  {
    if i.before.Some? then SpliceOne(rows, FindIndex(rows, i.before.value.id), WorkerRoute(i, worker))
    else rows + [WorkerRoute(i, worker)]
  }

  predicate Acked(zone: ZoneId, intents: seq<Intent>) {
    forall k :: 0 <= k < |intents| && intents[k].change.zoneId == zone ==> intents[k].id.Some?
  }

  /** The array the watchdog expects in `zone` once every acknowledged intent is applied. */
  function Expected(rows: seq<Route>, zone: ZoneId, intents: seq<Intent>, worker: string): seq<Route>
    requires Acked(zone, intents)
  {
    if intents == [] then rows
    else
      var n := |intents| - 1;
      var done := Expected(rows, zone, intents[..n], worker);
      if intents[n].change.zoneId == zone then ExpectedOne(done, intents[n], worker) else done
  }

  /** The same state said without arrays: the baseline overlaid, id by id, with the intents. */
  function Applied(base: Table, zone: ZoneId, intents: seq<Intent>, worker: string): Table
    requires Acked(zone, intents)
  {
    if intents == [] then base
    else
      var n := |intents| - 1;
      var done := Applied(base, zone, intents[..n], worker);
      if intents[n].change.zoneId == zone
      then done[intents[n].id.value := Row(intents[n].change.pattern, Some(worker))]
      else done
  }

  /** An intent replaces a baseline row under its own id, or adds a pattern and an id not in use. */
  ghost predicate IntentGrounded(rows: seq<Route>, i: Intent) {
    if i.before.Some? then
      && i.before.value in rows && i.before.value.pattern == i.change.pattern
      && (i.id.Some? ==> i.id.value == i.before.value.id)
    else
      && (forall m :: 0 <= m < |rows| ==> rows[m].pattern != i.change.pattern)
      && (i.id.Some? ==> forall m :: 0 <= m < |rows| ==> rows[m].id != i.id.value)
  }

  /** What the protocol keeps true of a zone's intents (against that zone's baseline rows). */
  ghost predicate Grounded(rows: seq<Route>, zone: ZoneId, intents: seq<Intent>) {
    && (forall k :: 0 <= k < |intents| && intents[k].change.zoneId == zone ==> IntentGrounded(rows, intents[k]))
    && (forall k, m :: 0 <= k < m < |intents| && intents[k].change.zoneId == zone == intents[m].change.zoneId ==>
          intents[k].change.pattern != intents[m].change.pattern
          && (intents[k].id.Some? && intents[m].id.Some? ==> intents[k].id != intents[m].id))
  }

  lemma GroundedPrefix(rows: seq<Route>, zone: ZoneId, intents: seq<Intent>, n: nat)
    requires n <= |intents| && Grounded(rows, zone, intents)
    ensures Grounded(rows, zone, intents[..n])
    ensures Acked(zone, intents) ==> Acked(zone, intents[..n])
  {
  }

  /** Where each row of the expected array comes from. */
  ghost predicate RowSource(r: Route, rows: seq<Route>, zone: ZoneId, intents: seq<Intent>, worker: string)
  {
    || (r in rows && forall k :: 0 <= k < |intents| && intents[k].change.zoneId == zone ==>
                                   intents[k].id != Some(r.id))
    || exists k :: 0 <= k < |intents| && intents[k].change.zoneId == zone
                   && intents[k].id.Some? && r == WorkerRoute(intents[k], worker)
  }

  /** The expected array has exactly the overlaid table's rows, with no id or pattern repeated. */
  lemma {:induction false} ExpectedIsApplied(rows: seq<Route>, zone: ZoneId, intents: seq<Intent>, worker: string)
    requires Distinct(rows) && Acked(zone, intents) && Grounded(rows, zone, intents)
    ensures var e := Expected(rows, zone, intents, worker);
            && Distinct(e)
            && TableOf(e) == Applied(TableOf(rows), zone, intents, worker)
            && (forall m :: 0 <= m < |e| ==> RowSource(e[m], rows, zone, intents, worker))
            && (forall r :: r in rows ==> HasId(e, r.id))
  {
    if intents != [] {
      var n := |intents| - 1;
      GroundedPrefix(rows, zone, intents, n);
      ExpectedIsApplied(rows, zone, intents[..n], worker);
      var done := Expected(rows, zone, intents[..n], worker);
      if intents[n].change.zoneId == zone {
        ExpectedStepPlaces(done, rows, zone, intents, worker);
      } else {
        forall m | 0 <= m < |done| ensures RowSource(done[m], rows, zone, intents, worker) {
          SourceGrows(done[m], rows, zone, intents, worker);
        }
      }
    }
  }

  /** `findIndex` never answers -1 where a listed route is to be replaced, so no splice ever hits
      the wrong row. */
  lemma FindIndexNeverMisses(rows: seq<Route>, zone: ZoneId, intents: seq<Intent>, worker: string, k: nat)
    requires Distinct(rows) && Acked(zone, intents) && Grounded(rows, zone, intents)
    requires k < |intents| && intents[k].change.zoneId == zone && intents[k].before.Some?
    ensures Acked(zone, intents[..k])
    ensures var done := Expected(rows, zone, intents[..k], worker);
            var i := FindIndex(done, intents[k].before.value.id);
            0 <= i < |done| && done[i].id == intents[k].before.value.id
  {
    GroundedPrefix(rows, zone, intents, k);
    ExpectedIsApplied(rows, zone, intents[..k], worker);
    assert intents[k].before.value in rows;
    FindIndexHits(Expected(rows, zone, intents[..k], worker), intents[k].before.value.id);
  }

  lemma SourceGrows(r: Route, rows: seq<Route>, zone: ZoneId, intents: seq<Intent>, worker: string)
    requires intents != []
    requires RowSource(r, rows, zone, intents[..|intents| - 1], worker)
    requires var i := intents[|intents| - 1]; i.change.zoneId != zone || i.id != Some(r.id)
    ensures RowSource(r, rows, zone, intents, worker)
  {
    var n := |intents| - 1;
    assert forall k :: 0 <= k < n ==> intents[..n][k] == intents[k];
    if !(r in rows && forall k :: 0 <= k < n && intents[k].change.zoneId == zone ==> intents[k].id != Some(r.id)) {
      var k :| 0 <= k < n && intents[..n][k].change.zoneId == zone
               && intents[..n][k].id.Some? && r == WorkerRoute(intents[..n][k], worker);
      assert intents[k] == intents[..n][k];
    }
  }

  /** One splice or push: the row lands under the intent's id and nothing else moves. */
  lemma ExpectedStepPlaces(done: seq<Route>, rows: seq<Route>, zone: ZoneId, intents: seq<Intent>, worker: string)
    requires intents != [] && intents[|intents| - 1].change.zoneId == zone
    requires Distinct(rows) && Acked(zone, intents) && Grounded(rows, zone, intents)
    requires Distinct(done)
    requires forall m :: 0 <= m < |done| ==> RowSource(done[m], rows, zone, intents[..|intents| - 1], worker)
    requires forall r :: r in rows ==> HasId(done, r.id)
    ensures var i := intents[|intents| - 1];
            var e := ExpectedOne(done, i, worker);
            && Distinct(e)
            && TableOf(e) == TableOf(done)[i.id.value := Row(i.change.pattern, Some(worker))]
            && (forall m :: 0 <= m < |e| ==> RowSource(e[m], rows, zone, intents, worker))
            && (forall r :: r in rows ==> HasId(e, r.id))
  {
    var n := |intents| - 1;
    var i := intents[n];
    var e := ExpectedOne(done, i, worker);
    var w := WorkerRoute(i, worker);
    var at := StepPosition(done, rows, zone, intents, worker);
    forall m | 0 <= m < |done| && m != at ensures done[m].pattern != w.pattern && done[m].id != w.id {
      OtherRowDiffers(done[m], rows, zone, intents, worker);
    }
    forall m | 0 <= m < |e| ensures RowSource(e[m], rows, zone, intents, worker) {
      if m != at { SourceGrows(done[m], rows, zone, intents, worker); }
    }
    UpdateTable(done, e, w);
  }

  ghost predicate HasId(rows: seq<Route>, id: RouteId) {
    exists m :: 0 <= m < |rows| && rows[m].id == id
  }

  lemma StepPosition(done: seq<Route>, rows: seq<Route>, zone: ZoneId, intents: seq<Intent>, worker: string) returns (at: nat)
    requires intents != [] && intents[|intents| - 1].change.zoneId == zone
    requires Distinct(rows) && Acked(zone, intents) && Grounded(rows, zone, intents)
    requires forall r :: r in rows ==> HasId(done, r.id)
    ensures var i := intents[|intents| - 1];
            var e := ExpectedOne(done, i, worker);
            var w := WorkerRoute(i, worker);
            && (if i.before.None? then e == done + [w] && at == |done|
                else at < |done| && done[at].id == w.id == i.before.value.id && e == done[at := w])
            && e[at] == w
    ensures forall r :: r in rows ==> HasId(ExpectedOne(done, intents[|intents| - 1], worker), r.id)
  {
    var i := intents[|intents| - 1];
    var w := WorkerRoute(i, worker);
    var e := ExpectedOne(done, i, worker);
    if i.before.Some? {
      FindIndexHits(done, i.before.value.id);
      assert HasId(done, i.before.value.id);
      at := FindIndex(done, i.before.value.id);
      assert e == done[at := w];
    } else {
      at := |done|;
    }
    forall r | r in rows ensures HasId(e, r.id) {
      var m :| 0 <= m < |done| && done[m].id == r.id;
      assert e[m].id == r.id;
    }
  }

  /** A row other than the one being replaced shares neither id nor pattern with the new row. */
  lemma OtherRowDiffers(r: Route, rows: seq<Route>, zone: ZoneId, intents: seq<Intent>, worker: string)
    requires intents != [] && intents[|intents| - 1].change.zoneId == zone
    requires Distinct(rows) && Acked(zone, intents) && Grounded(rows, zone, intents)
    requires RowSource(r, rows, zone, intents[..|intents| - 1], worker)
    requires var i := intents[|intents| - 1]; i.before.Some? ==> r.id != i.before.value.id
    ensures var i := intents[|intents| - 1]; r.pattern != i.change.pattern && Some(r.id) != i.id
  {
    var n := |intents| - 1;
    var i := intents[n];
    if r in rows {
      if i.before.Some? {
        var a :| 0 <= a < |rows| && rows[a] == r;
        var b :| 0 <= b < |rows| && rows[b] == i.before.value;
        assert a != b;
      }
    } else {
      var k :| 0 <= k < n && intents[..n][k].change.zoneId == zone
               && intents[..n][k].id.Some? && r == WorkerRoute(intents[..n][k], worker);
      assert intents[k] == intents[..n][k];
    }
  }

  lemma UpdateTable(a: seq<Route>, b: seq<Route>, w: Route)
    requires Distinct(a) && Distinct(b)
    requires b == a + [w] || exists at :: 0 <= at < |a| && a[at].id == w.id && b == a[at := w]
    ensures TableOf(b) == TableOf(a)[w.id := w.ToRow()]
  {
    if b == a + [w] {
      assert b[..|b| - 1] == a;
    } else {
      var at :| 0 <= at < |a| && a[at].id == w.id && b == a[at := w];
      UpdateAt(a, at, w);
    }
  }

  lemma {:induction false} UpdateAt(a: seq<Route>, at: nat, w: Route)
    requires at < |a| && a[at].id == w.id && Distinct(a)
    ensures TableOf(a[at := w]) == TableOf(a)[w.id := w.ToRow()]
  {
    var n := |a| - 1;
    var b := a[at := w];
    if at == n {
      assert b[..n] == a[..n];
    } else {
      assert b[..n] == a[..n][at := w];
      UpdateAt(a[..n], at, w);
      assert a[n].id != w.id;
    }
  }
}
