/** Who may do what: grants, the records they reach, and the batch and restated forms of a check. */
module Authorization {
  import opened Options

  type Capability = string
  type Locale = string

  datatype ActorKind = Staff | Client | Visitor | AiService | System
  datatype Actor = Actor(kind: ActorKind, id: string)

  /** Absent parts do not restrict. */
  datatype Scope = Scope(recordType: Option<string>, recordId: Option<string>, locales: Option<seq<Locale>>, expiresAt: Option<int>)
  datatype Grant = Grant(capability: Capability, scope: Option<Scope>)
  datatype Context = Context(recordType: Option<string>, recordId: Option<string>, locale: Option<Locale>, now: Option<int>)

  datatype Resource = Resource(
    recordType: string, id: Option<string>, locale: Option<Locale>, caseId: Option<string>, propertyId: Option<string>, internal: bool)

  /** The capability catalog: what each role and each background job brings, and what only drafts. */
  datatype Catalog = Catalog(
    presets: map<string, seq<Capability>>, jobs: map<string, seq<Capability>>, draftOnly: seq<Capability>, all: seq<Capability>)

  // ------------------------------------------------------------------ one grant, one context

  predicate ScopeAdmits(scope: Scope, ctx: Context) {
    && (scope.expiresAt.Some? ==> ctx.now.Some? && ctx.now.value < scope.expiresAt.value)
    && (scope.recordType.Some? ==> scope.recordType == ctx.recordType)
    && (scope.recordId.Some? ==> scope.recordId == ctx.recordId)
    && (scope.locales.Some? ==> ctx.locale.Some? && ctx.locale.value in scope.locales.value)
  }

  predicate GrantReaches(g: Grant, capability: Capability, ctx: Context) {
    g.capability == capability && (g.scope.None? || ScopeAdmits(g.scope.value, ctx))
  }

  predicate HasCapability(cat: Catalog, actor: Actor, grants: seq<Grant>, capability: Capability, ctx: Context) {
    && (actor.kind == AiService ==> capability in cat.draftOnly)
    && exists i :: 0 <= i < |grants| && GrantReaches(grants[i], capability, ctx)
  }

  // ------------------------------------------------------------------ records

  const PROPERTY_RECORD_TYPES := ["property", "listing"]

  /** An empty string counts as an absent one. */
  function NonEmpty(s: Option<string>): Option<string> { if s == Some("") then None else s }

  /** The record itself, its case, and, for records that belong to it, its property. */
  function ContextsFor(resource: Option<Resource>, now: int): seq<Context> {
    match resource
    case None => [Context(None, None, None, Some(now))]
    case Some(r) =>
      [Context(Some(r.recordType), NonEmpty(r.id), r.locale, Some(now))]
      + (if NonEmpty(r.caseId).Some? then [Context(Some("case"), r.caseId, r.locale, Some(now))] else [])
      + (if NonEmpty(r.propertyId).Some? && r.recordType in PROPERTY_RECORD_TYPES
         then [Context(Some("property"), r.propertyId, r.locale, Some(now))] else [])
  }

  predicate Allows(cat: Catalog, actor: Actor, grants: seq<Grant>, capability: Capability, resource: Option<Resource>, now: int) {
    && !(resource.Some? && resource.value.internal && (actor.kind == Client || actor.kind == Visitor))
    && exists k :: 0 <= k < |ContextsFor(resource, now)| && HasCapability(cat, actor, grants, capability, ContextsFor(resource, now)[k])
  }

  // ------------------------------------------------------------------ stored grants

  datatype GrantRow = GrantRow(
    principalId: Option<string>, serviceName: Option<string>, role: Option<string>, capability: Option<Capability>,
    recordType: Option<string>, recordId: Option<string>, locales: seq<Locale>, expiresAt: Option<int>, revokedAt: Option<int>)

  datatype Principal = Principal(active: bool, isStaff: bool, isClient: bool, partyId: string)

  /** A case participation or a property link of a party. */
  datatype Relationship = Relationship(
    partyId: string, target: (string, string), role: string, reviewed: bool, validFrom: int, expiresAt: Option<int>,
    revokedAt: Option<int>, invited: seq<string>, resources: Option<seq<(string, string)>>)

  /** The rows read here; a staff member has one membership row, which is active or not. */
  datatype Tables = Tables(
    principals: map<string, Principal>, memberships: map<string, bool>, grants: seq<GrantRow>, relationships: seq<Relationship>)

  function ScopedTo(recordType: Option<string>, recordId: Option<string>, locales: seq<Locale>, expiresAt: Option<int>): Option<Scope> {
    var scope := Scope(NonEmpty(recordType), NonEmpty(recordId), if locales == [] then None else Some(locales), expiresAt);
    if scope == Scope(None, None, None, None) then None else Some(scope)
  }

  function Each(capabilities: seq<Capability>, scope: Option<Scope>): seq<Grant> {
    seq(|capabilities|, i requires 0 <= i < |capabilities| => Grant(capabilities[i], scope))
  }

  function Preset(cat: Catalog, role: string): seq<Capability> { if role in cat.presets then cat.presets[role] else [] }

  function ExpandGrant(cat: Catalog, row: GrantRow): seq<Grant> {
    var scope := ScopedTo(row.recordType, row.recordId, row.locales, row.expiresAt);
    Each(if row.role.Some? then Preset(cat, row.role.value) else if row.capability.Some? then [row.capability.value] else [], scope)
  }

  predicate Live(row: GrantRow, now: int) { row.revokedAt.None? && (row.expiresAt.Some? ==> row.expiresAt.value > now) }

  function Expanded(cat: Catalog, rows: seq<GrantRow>): seq<Grant> {
    if rows == [] then [] else Expanded(cat, rows[..|rows| - 1]) + ExpandGrant(cat, rows[|rows| - 1])
  }

  function Filter<T>(p: T -> bool, rows: seq<T>): seq<T> {
    if rows == [] then []
    else Filter(p, rows[..|rows| - 1]) + (if p(rows[|rows| - 1]) then [rows[|rows| - 1]] else [])
  }

  lemma {:induction false} FilterHas<T>(p: T -> bool, rows: seq<T>, x: T)
    ensures x in Filter(p, rows) <==> x in rows && p(x)
  {
    if rows != [] {
      FilterHas(p, rows[..|rows| - 1], x);
      assert rows == rows[..|rows| - 1] + [rows[|rows| - 1]];
    }
  }

  // ------------------------------------------------------------------ relationships

  const PRINCIPAL_ONLY := ["portal.access.request", "portal.brief.acknowledge", "portal.proposal.respond", "portal.listing.acknowledge"]
  const SELLER_SIDE := ["seller", "landlord", "authorized_representative"]
  const BRIEF_PARTIES := ["buyer", "co_buyer", "tenant", "seller", "landlord"]

  function InvitedFloor(cat: Catalog, role: string): Option<seq<Capability>> {
    if role == "collaborator" || role == "adviser" then Some(Preset(cat, "invited_collaborator"))
    else if role == "guest" then Some(["portal.case.read"])
    else if role == "specialist" then Some(Preset(cat, "external_specialist"))
    else None
  }

  function RelationshipCapabilities(cat: Catalog, role: string, reviewed: bool, invited: seq<Capability>): seq<Capability> {
    var floor := InvitedFloor(cat, role);
    if floor.Some? then floor.value + Filter(c => "portal." <= c && c !in PRINCIPAL_ONLY, invited)
    else Filter(c => (c != "portal.listing.acknowledge" || (role in SELLER_SIDE && reviewed))
                     && (c != "portal.brief.acknowledge" || role in BRIEF_PARTIES), Preset(cat, "verified_client"))
  }

  predicate Current(rel: Relationship, partyId: string, now: int) {
    && rel.partyId == partyId && rel.revokedAt.None? && rel.validFrom <= now
    && (rel.expiresAt.Some? ==> rel.expiresAt.value > now)
  }

  function Targets(rel: Relationship): seq<(string, string)> {
    if rel.resources.Some? then rel.resources.value else [rel.target]
  }

  function OnTargets(conferred: seq<Capability>, targets: seq<(string, string)>, expiresAt: Option<int>): seq<Grant> {
    if targets == [] then []
    else
      var (recordType, recordId) := targets[|targets| - 1];
      OnTargets(conferred, targets[..|targets| - 1], expiresAt) + Each(conferred, ScopedTo(Some(recordType), Some(recordId), [], expiresAt))
  }

  function Conferred(cat: Catalog, rel: Relationship): seq<Grant> {
    if rel.role == "specialist" && rel.expiresAt.None? then []
    else OnTargets(RelationshipCapabilities(cat, rel.role, rel.reviewed, Filter(c => c in cat.all, rel.invited)), Targets(rel), rel.expiresAt)
  }

  function AllConferred(cat: Catalog, rels: seq<Relationship>): seq<Grant> {
    if rels == [] then [] else AllConferred(cat, rels[..|rels| - 1]) + Conferred(cat, rels[|rels| - 1])
  }

  // ------------------------------------------------------------------ everything an actor holds

  predicate ActiveStaff(db: Tables, id: string) {
    && id in db.principals && db.principals[id].active && db.principals[id].isStaff
    && id in db.memberships && db.memberships[id]
  }

  function RowsOf(db: Tables, id: string, now: int): seq<GrantRow> {
    Filter((r: GrantRow) => r.principalId == Some(id) && Live(r, now), db.grants)
  }

  function GrantsOf(cat: Catalog, db: Tables, actor: Actor, now: int): seq<Grant> {
    match actor.kind
    case Visitor => Each(Preset(cat, "visitor"), None)
    case System => Each(if actor.id in cat.jobs then cat.jobs[actor.id] else [], None)
    case AiService => Expanded(cat, Filter((r: GrantRow) => r.serviceName == Some(actor.id) && Live(r, now), db.grants))
    case Staff => if ActiveStaff(db, actor.id) then Expanded(cat, RowsOf(db, actor.id, now)) else []
    case Client =>
      if actor.id !in db.principals || !db.principals[actor.id].active || !db.principals[actor.id].isClient then []
      else
        Expanded(cat, Filter((r: GrantRow) => NonEmpty(r.recordId).Some?, RowsOf(db, actor.id, now)))
        + AllConferred(cat, Filter((r: Relationship) => Current(r, db.principals[actor.id].partyId, now), db.relationships))
  }

  predicate Can(cat: Catalog, db: Tables, actor: Actor, capability: Capability, resource: Option<Resource>, now: int) {
    Allows(cat, actor, GrantsOf(cat, db, actor, now), capability, resource, now)
  }

  /** `resolveGrants`, with its loops over relationships, their targets and what they confer. */
  method ResolveGrants(cat: Catalog, db: Tables, actor: Actor, now: int) returns (grants: seq<Grant>)
    ensures grants == GrantsOf(cat, db, actor, now)
  {
    if actor.kind == Visitor { return Each(Preset(cat, "visitor"), None); }
    if actor.kind == System { return Each(if actor.id in cat.jobs then cat.jobs[actor.id] else [], None); }
    if actor.kind == AiService {
      grants := Expand(cat, Filter((r: GrantRow) => r.serviceName == Some(actor.id) && Live(r, now), db.grants));
      return;
    }
    if actor.kind == Staff {
      if !ActiveStaff(db, actor.id) { return []; }
      grants := Expand(cat, RowsOf(db, actor.id, now));
      return;
    }
    if actor.id !in db.principals || !db.principals[actor.id].active || !db.principals[actor.id].isClient { return []; }
    grants := Expand(cat, Filter((r: GrantRow) => NonEmpty(r.recordId).Some?, RowsOf(db, actor.id, now)));
    var more := Confer(cat, Filter((r: Relationship) => Current(r, db.principals[actor.id].partyId, now), db.relationships));
    grants := grants + more;
  }

  method Expand(cat: Catalog, rows: seq<GrantRow>) returns (grants: seq<Grant>)
    ensures grants == Expanded(cat, rows)
  {
    grants := [];
    for i := 0 to |rows|
      invariant grants == Expanded(cat, rows[..i])
    {
      assert rows[..i + 1][..i] == rows[..i];
      grants := grants + ExpandGrant(cat, rows[i]);
    }
    assert rows[..|rows|] == rows;
  }

  /** What the party's current relationships confer, one after another. */
  method Confer(cat: Catalog, rels: seq<Relationship>) returns (grants: seq<Grant>)
    ensures grants == AllConferred(cat, rels)
  {
    grants := [];
    for i := 0 to |rels|
      invariant grants == AllConferred(cat, rels[..i])
    {
      var rel := rels[i];
      assert rels[..i + 1][..i] == rels[..i];
      if rel.role == "specialist" && rel.expiresAt.None? { continue; }
      var conferred := RelationshipCapabilities(cat, rel.role, rel.reviewed, Filter(c => c in cat.all, rel.invited));
      var pushed := Push(conferred, Targets(rel), rel.expiresAt);
      grants := grants + pushed;
    }
    assert rels[..|rels|] == rels;
  }

  method Push(conferred: seq<Capability>, targets: seq<(string, string)>, expiresAt: Option<int>) returns (grants: seq<Grant>)
    ensures grants == OnTargets(conferred, targets, expiresAt)
  {
    grants := [];
    for t := 0 to |targets|
      invariant grants == OnTargets(conferred, targets[..t], expiresAt)
    {
      var scope := ScopedTo(Some(targets[t].0), Some(targets[t].1), [], expiresAt);
      ghost var before := grants;
      for c := 0 to |conferred|
        invariant grants == before + Each(conferred[..c], scope)
      {
        grants := grants + [Grant(conferred[c], scope)];
      }
      assert conferred[..|conferred|] == conferred && targets[..t + 1][..t] == targets[..t];
    }
    assert targets[..|targets|] == targets;
  }

  // ------------------------------------------------------------------ which grants there are is all that counts

  lemma MoreGrantsAllowMore(cat: Catalog, actor: Actor, few: seq<Grant>, many: seq<Grant>, capability: Capability, resource: Option<Resource>, now: int)
    requires forall g :: g in few ==> g in many
    requires Allows(cat, actor, few, capability, resource, now)
    ensures Allows(cat, actor, many, capability, resource, now)
  {
    var k :| 0 <= k < |ContextsFor(resource, now)| && HasCapability(cat, actor, few, capability, ContextsFor(resource, now)[k]);
    var ctx := ContextsFor(resource, now)[k];
    var i :| 0 <= i < |few| && GrantReaches(few[i], capability, ctx);
    assert few[i] in many;
    var j :| 0 <= j < |many| && many[j] == few[i];
    assert HasCapability(cat, actor, many, capability, ctx);
  }

  lemma {:induction false} ExpandedHas(cat: Catalog, rows: seq<GrantRow>, g: Grant)
    ensures g in Expanded(cat, rows) <==> exists i :: 0 <= i < |rows| && g in ExpandGrant(cat, rows[i])
  {
    if rows != [] {
      var n := |rows| - 1;
      ExpandedHas(cat, rows[..n], g);
      if g in Expanded(cat, rows[..n]) {
        var i :| 0 <= i < n && g in ExpandGrant(cat, rows[..n][i]);
        assert rows[i] == rows[..n][i];
      }
      if exists i :: 0 <= i < |rows| && g in ExpandGrant(cat, rows[i]) {
        var i :| 0 <= i < |rows| && g in ExpandGrant(cat, rows[i]);
        if i < n { assert rows[..n][i] == rows[i]; }
      }
    }
  }

  // ------------------------------------------------------------------ the batch form

  /** What the one query answers: each active staff member asked about, joined with each live grant of
      theirs, in any order. */
  ghost predicate IsJoin(rows: seq<(string, GrantRow)>, db: Tables, ids: seq<string>, now: int) {
    forall id, r :: (id, r) in rows <==>
      id in ids && ActiveStaff(db, id) && r in db.grants && r.principalId == Some(id) && Live(r, now)
  }

  /** `staffWhoCan`: exactly those for whom `can` answers yes to every capability required. */
  method StaffWhoCan(cat: Catalog, db: Tables, ids: seq<string>, required: seq<Capability>, resource: Option<Resource>, now: int,
                     rows: seq<(string, GrantRow)>) returns (able: set<string>)
    requires required != [] && IsJoin(rows, db, ids, now)
    ensures forall id :: id in able <==>
              id in ids && forall c :: c in required ==> Can(cat, db, Actor(Staff, id), c, resource, now)
  {
    able := {};
    if ids == [] { return; }
    var grantsById := GroupGrants(cat, rows);
    var left := grantsById.Keys;
    while left != {}
      invariant left <= grantsById.Keys && able <= grantsById.Keys - left
      invariant forall id :: id in grantsById && id !in left ==>
                  (id in able <==> forall c :: c in required ==> Allows(cat, Actor(Staff, id), grantsById[id], c, resource, now))
      decreases |left|
    {
      var id :| id in left;
      left := left - {id};
      if forall i :: 0 <= i < |required| ==> Allows(cat, Actor(Staff, id), grantsById[id], required[i], resource, now) {
        able := able + {id};
      }
    }
    forall id ensures id in able <==> id in ids && forall c :: c in required ==> Can(cat, db, Actor(Staff, id), c, resource, now) {
      BatchAgrees(cat, db, ids, required, resource, now, rows, grantsById, id);
    }
  }

  /** Groups the joined grants by staff member. */
  method GroupGrants(cat: Catalog, rows: seq<(string, GrantRow)>) returns (grantsById: map<string, seq<Grant>>)
    ensures forall id :: id in grantsById <==> exists i :: 0 <= i < |rows| && rows[i].0 == id
    ensures forall id, g :: id in grantsById ==>
              (g in grantsById[id] <==> exists i :: 0 <= i < |rows| && rows[i].0 == id && g in ExpandGrant(cat, rows[i].1))
  {
    grantsById := map[];
    for k := 0 to |rows|
      invariant forall id :: id in grantsById <==> exists i :: 0 <= i < k && rows[i].0 == id
      invariant forall id, g :: id in grantsById ==>
                  (g in grantsById[id] <==> exists i :: 0 <= i < k && rows[i].0 == id && g in ExpandGrant(cat, rows[i].1))
    {
      var (id, row) := rows[k];
      var grants := if id in grantsById then grantsById[id] else [];
      grantsById := grantsById[id := grants + ExpandGrant(cat, row)];
    }
  }

  /** For one staff member the grouped grants are the grants `can` resolves. */
  lemma GroupedIsResolved(cat: Catalog, db: Tables, ids: seq<string>, now: int, rows: seq<(string, GrantRow)>, id: string, g: Grant)
    requires IsJoin(rows, db, ids, now) && id in ids && ActiveStaff(db, id)
    ensures g in GrantsOf(cat, db, Actor(Staff, id), now)
            <==> exists i :: 0 <= i < |rows| && rows[i].0 == id && g in ExpandGrant(cat, rows[i].1)
  {
    var own := RowsOf(db, id, now);
    ExpandedHas(cat, own, g);
    if g in Expanded(cat, own) {
      var i :| 0 <= i < |own| && g in ExpandGrant(cat, own[i]);
      FilterHas((r: GrantRow) => r.principalId == Some(id) && Live(r, now), db.grants, own[i]);
      assert (id, own[i]) in rows;
      var j :| 0 <= j < |rows| && rows[j] == (id, own[i]);
    }
    if exists i :: 0 <= i < |rows| && rows[i].0 == id && g in ExpandGrant(cat, rows[i].1) {
      var i :| 0 <= i < |rows| && rows[i].0 == id && g in ExpandGrant(cat, rows[i].1);
      assert (id, rows[i].1) in rows;
      FilterHas((r: GrantRow) => r.principalId == Some(id) && Live(r, now), db.grants, rows[i].1);
      var j :| 0 <= j < |own| && own[j] == rows[i].1;
    }
  }

  lemma BatchAgrees(cat: Catalog, db: Tables, ids: seq<string>, required: seq<Capability>, resource: Option<Resource>, now: int,
                    rows: seq<(string, GrantRow)>, grantsById: map<string, seq<Grant>>, id: string)
    requires required != [] && IsJoin(rows, db, ids, now)
    requires id in grantsById <==> exists i :: 0 <= i < |rows| && rows[i].0 == id
    requires forall g :: id in grantsById ==>
               (g in grantsById[id] <==> exists i :: 0 <= i < |rows| && rows[i].0 == id && g in ExpandGrant(cat, rows[i].1))
    ensures (id in grantsById && forall c :: c in required ==> Allows(cat, Actor(Staff, id), grantsById[id], c, resource, now))
            <==> (id in ids && forall c :: c in required ==> Can(cat, db, Actor(Staff, id), c, resource, now))
  {
    var held := GrantsOf(cat, db, Actor(Staff, id), now);
    if id in grantsById {
      var i :| 0 <= i < |rows| && rows[i].0 == id;
      assert (id, rows[i].1) in rows;
      forall g ensures g in held <==> g in grantsById[id] { GroupedIsResolved(cat, db, ids, now, rows, id, g); }
      forall c ensures Can(cat, db, Actor(Staff, id), c, resource, now) <==> Allows(cat, Actor(Staff, id), grantsById[id], c, resource, now) {
        SameGrantsSameAnswer(cat, Actor(Staff, id), held, grantsById[id], c, resource, now);
      }
    } else {
      if id in ids && ActiveStaff(db, id) {
        forall g ensures g !in held { GroupedIsResolved(cat, db, ids, now, rows, id, g); }
      }
      SomeGrant(held);
      assert required[0] in required;
    }
  }

  lemma SameGrantsSameAnswer(cat: Catalog, actor: Actor, a: seq<Grant>, b: seq<Grant>, capability: Capability, resource: Option<Resource>, now: int)
    requires forall g :: g in a <==> g in b
    ensures Allows(cat, actor, a, capability, resource, now) <==> Allows(cat, actor, b, capability, resource, now)
  {
    if Allows(cat, actor, a, capability, resource, now) { MoreGrantsAllowMore(cat, actor, a, b, capability, resource, now); }
    if Allows(cat, actor, b, capability, resource, now) { MoreGrantsAllowMore(cat, actor, b, a, capability, resource, now); }
  }

  lemma SomeGrant(grants: seq<Grant>)
    ensures grants == [] || exists g :: g in grants
  {
    if grants != [] { assert grants[0] in grants; }
  }

  // ------------------------------------------------------------------ the restated form

  function Restated(g: Grant): Grant {
    if g.scope.Some? && g.scope.value.locales.Some?
    then Grant(g.capability, Some(Scope(None, None, g.scope.value.locales, None)))
    else Grant(g.capability, None)
  }

  /** The grant said of the record itself, if it reaches the record; only its locales are kept. */
  function RestatedFor(cat: Catalog, actor: Actor, g: Grant, resource: Resource, now: int): seq<Grant> {
    if Allows(cat, actor, [g], g.capability, Some(resource), now) then [Restated(g)] else []
  }

  function GrantsFor(cat: Catalog, actor: Actor, grants: seq<Grant>, resource: Resource, now: int): seq<Grant> {
    if grants == [] then []
    else
      var n := |grants| - 1;
      GrantsFor(cat, actor, grants[..n], resource, now) + RestatedFor(cat, actor, grants[n], resource, now)
  }

  lemma {:induction false} GrantsForHas(cat: Catalog, actor: Actor, grants: seq<Grant>, resource: Resource, now: int, r: Grant)
    ensures r in GrantsFor(cat, actor, grants, resource, now)
            <==> exists i :: 0 <= i < |grants| && r in RestatedFor(cat, actor, grants[i], resource, now)
  {
    if grants != [] {
      var n := |grants| - 1;
      GrantsForHas(cat, actor, grants[..n], resource, now, r);
      if r in GrantsFor(cat, actor, grants[..n], resource, now) {
        var i :| 0 <= i < n && r in RestatedFor(cat, actor, grants[..n][i], resource, now);
        assert grants[i] == grants[..n][i];
      }
      assert forall i :: 0 <= i < n ==> grants[..n][i] == grants[i];
    }
  }

  /** The context in which a transition checks the record it is about. */
  function RecordContext(resource: Resource, recordId: string, at: int): Context {
    Context(Some(resource.recordType), Some(recordId), resource.locale, Some(at))
  }

  /** Restated grants pass the transition's own check exactly when the original grants allowed the
      capability on the record: through the record, its case or its property, and whenever the
      transition happens. */
  lemma RestatedGrantsPassExactlyWhenAllowed(cat: Catalog, actor: Actor, grants: seq<Grant>, capability: Capability, resource: Resource,
                                             recordId: string, now: int, at: int)
    ensures HasCapability(cat, actor, GrantsFor(cat, actor, grants, resource, now), capability, RecordContext(resource, recordId, at))
            <==> Allows(cat, actor, grants, capability, Some(resource), now)
  {
    var restated := GrantsFor(cat, actor, grants, resource, now);
    var here := RecordContext(resource, recordId, at);
    if HasCapability(cat, actor, restated, capability, here) {
      var j :| 0 <= j < |restated| && GrantReaches(restated[j], capability, here);
      GrantsForHas(cat, actor, grants, resource, now, restated[j]);
      assert restated[j] in restated;
      var i :| 0 <= i < |grants| && restated[j] in RestatedFor(cat, actor, grants[i], resource, now);
      MoreGrantsAllowMore(cat, actor, [grants[i]], grants, capability, Some(resource), now);
    }
    if Allows(cat, actor, grants, capability, Some(resource), now) {
      var i := AllowedByOne(cat, actor, grants, capability, Some(resource), now);
      GrantsForHas(cat, actor, grants, resource, now, Restated(grants[i]));
      assert Restated(grants[i]) in RestatedFor(cat, actor, grants[i], resource, now);
      var j :| 0 <= j < |restated| && restated[j] == Restated(grants[i]);
      LocaleCarries(cat, actor, grants[i], resource, now, here);
    }
  }

  lemma AllowedByOne(cat: Catalog, actor: Actor, grants: seq<Grant>, capability: Capability, resource: Option<Resource>, now: int) returns (i: nat)
    requires Allows(cat, actor, grants, capability, resource, now)
    ensures i < |grants| && grants[i].capability == capability && Allows(cat, actor, [grants[i]], capability, resource, now)
    ensures actor.kind == AiService ==> capability in cat.draftOnly
  {
    var k :| 0 <= k < |ContextsFor(resource, now)| && HasCapability(cat, actor, grants, capability, ContextsFor(resource, now)[k]);
    var ctx := ContextsFor(resource, now)[k];
    i :| 0 <= i < |grants| && GrantReaches(grants[i], capability, ctx);
    assert GrantReaches([grants[i]][0], capability, ctx);
    assert HasCapability(cat, actor, [grants[i]], capability, ctx);
  }

  /** Every way to reach a record looks at the record's own locale. */
  lemma LocaleCarries(cat: Catalog, actor: Actor, g: Grant, resource: Resource, now: int, here: Context)
    requires Allows(cat, actor, [g], g.capability, Some(resource), now) && here.locale == resource.locale
    ensures GrantReaches(Restated(g), g.capability, here)
  {
    var ctxs := ContextsFor(Some(resource), now);
    var k :| 0 <= k < |ctxs| && HasCapability(cat, actor, [g], g.capability, ctxs[k]);
    assert ctxs[k].locale == resource.locale;
    var i :| 0 <= i < 1 && GrantReaches([g][i], g.capability, ctxs[k]);
    assert [g][i] == g;
  }
}
