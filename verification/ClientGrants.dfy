/** What a client's grants can be: where each comes from, which records it reaches, and what an invited
    party never holds. */
module ClientGrants {
  import opened Options
  import opened Authorization

  predicate ActiveClient(db: Tables, id: string) { id in db.principals && db.principals[id].active && db.principals[id].isClient }

  // ------------------------------------------------------------------ where a grant comes from

  /** The stored row is the client's own, live, and names a record. */
  predicate OwnRow(db: Tables, id: string, now: int, r: GrantRow) {
    r in db.grants && r.principalId == Some(id) && Live(r, now) && r.recordId.Some? && r.recordId != Some("")
  }

  /** It gives a capability of its role, or its own, on that record, in its locales and until it expires. */
  predicate RowGives(cat: Catalog, r: GrantRow, g: Grant) {
    && (if r.role.Some? then g.capability in Preset(cat, r.role.value) else Some(g.capability) == r.capability)
    && g.scope == Some(Scope(NonEmpty(r.recordType), NonEmpty(r.recordId), if r.locales == [] then None else Some(r.locales), r.expiresAt))
  }

  function InvitedTo(cat: Catalog, rel: Relationship): seq<Capability> { Filter(c => c in cat.all, rel.invited) }

  function Confers(cat: Catalog, rel: Relationship): seq<Capability> {
    if rel.role == "specialist" && rel.expiresAt.None? then []
    else RelationshipCapabilities(cat, rel.role, rel.reviewed, InvitedTo(cat, rel))
  }

  /** The relationship is the party's and is current. */
  predicate OwnRelationship(db: Tables, id: string, now: int, rel: Relationship)
    requires id in db.principals
  {
    rel in db.relationships && Current(rel, db.principals[id].partyId, now)
  }

  predicate RelationshipGives(cat: Catalog, rel: Relationship, target: (string, string), g: Grant) {
    target in Targets(rel) && g.capability in Confers(cat, rel) && g.scope == ScopedTo(Some(target.0), Some(target.1), [], rel.expiresAt)
  }

  ghost predicate FromRow(cat: Catalog, db: Tables, id: string, now: int, g: Grant) {
    exists r :: OwnRow(db, id, now, r) && RowGives(cat, r, g)
  }

  ghost predicate FromRelationship(cat: Catalog, db: Tables, id: string, now: int, g: Grant)
    requires id in db.principals
  {
    exists rel, target :: OwnRelationship(db, id, now, rel) && RelationshipGives(cat, rel, target, g)
  }

  lemma EachHas(capabilities: seq<Capability>, scope: Option<Authorization.Scope>, g: Grant)
    ensures g in Each(capabilities, scope) <==> g.capability in capabilities && g.scope == scope
  {
    if g.capability in capabilities && g.scope == scope {
      var i :| 0 <= i < |capabilities| && capabilities[i] == g.capability;
      assert Each(capabilities, scope)[i] == g;
    }
  }

  lemma {:induction false} OnTargetsHas(conferred: seq<Capability>, targets: seq<(string, string)>, expiresAt: Option<int>, g: Grant)
    ensures g in OnTargets(conferred, targets, expiresAt)
            <==> g.capability in conferred && exists t :: t in targets && g.scope == ScopedTo(Some(t.0), Some(t.1), [], expiresAt)
  {
    if targets != [] {
      var n := |targets| - 1;
      OnTargetsHas(conferred, targets[..n], expiresAt, g);
      EachHas(conferred, ScopedTo(Some(targets[n].0), Some(targets[n].1), [], expiresAt), g);
      assert targets == targets[..n] + [targets[n]];
    }
  }

  lemma {:induction false} AllConferredHas(cat: Catalog, rels: seq<Relationship>, g: Grant)
    ensures g in AllConferred(cat, rels) <==> exists rel :: rel in rels && g in Conferred(cat, rel)
  {
    if rels != [] {
      var n := |rels| - 1;
      AllConferredHas(cat, rels[..n], g);
      assert rels == rels[..n] + [rels[n]];
    }
  }

  lemma ConferredHas(cat: Catalog, rel: Relationship, g: Grant)
    ensures g in Conferred(cat, rel) <==> exists t :: RelationshipGives(cat, rel, t, g)
  {
    OnTargetsHas(RelationshipCapabilities(cat, rel.role, rel.reviewed, InvitedTo(cat, rel)), Targets(rel), rel.expiresAt, g);
    if t :| t in Targets(rel) && g.scope == ScopedTo(Some(t.0), Some(t.1), [], rel.expiresAt) {
      assert g.capability in Confers(cat, rel) ==> RelationshipGives(cat, rel, t, g);
    }
  }

  lemma RowHas(cat: Catalog, r: GrantRow, g: Grant)
    requires NonEmpty(r.recordId).Some?
    ensures g in ExpandGrant(cat, r) <==> RowGives(cat, r, g)
  {
    var scope := ScopedTo(r.recordType, r.recordId, r.locales, r.expiresAt);
    EachHas(if r.role.Some? then Preset(cat, r.role.value) else if r.capability.Some? then [r.capability.value] else [], scope, g);
  }

  lemma RowsHave(cat: Catalog, db: Tables, id: string, now: int, g: Grant)
    ensures g in Expanded(cat, Filter((r: GrantRow) => NonEmpty(r.recordId).Some?, RowsOf(db, id, now))) <==> FromRow(cat, db, id, now, g)
  {
    var named, own := (r: GrantRow) => NonEmpty(r.recordId).Some?, (r: GrantRow) => r.principalId == Some(id) && Live(r, now);
    var rows := Filter(named, RowsOf(db, id, now));
    forall r ensures r in rows <==> OwnRow(db, id, now, r) {
      FilterHas(named, RowsOf(db, id, now), r);
      FilterHas(own, db.grants, r);
    }
    ExpandedHas(cat, rows, g);
    if i :| 0 <= i < |rows| && g in ExpandGrant(cat, rows[i]) {
      assert rows[i] in rows;
      RowHas(cat, rows[i], g);
      assert OwnRow(db, id, now, rows[i]) && RowGives(cat, rows[i], g);
    }
    if r :| OwnRow(db, id, now, r) && RowGives(cat, r, g) {
      var i :| 0 <= i < |rows| && rows[i] == r;
      RowHas(cat, r, g);
    }
  }

  lemma RelationshipsHave(cat: Catalog, db: Tables, id: string, now: int, g: Grant)
    requires id in db.principals
    ensures g in AllConferred(cat, Filter((r: Relationship) => Current(r, db.principals[id].partyId, now), db.relationships))
            <==> FromRelationship(cat, db, id, now, g)
  {
    var current := (r: Relationship) => Current(r, db.principals[id].partyId, now);
    var rels := Filter(current, db.relationships);
    forall rel ensures rel in rels <==> OwnRelationship(db, id, now, rel) { FilterHas(current, db.relationships, rel); }
    AllConferredHas(cat, rels, g);
    if rel :| rel in rels && g in Conferred(cat, rel) {
      ConferredHas(cat, rel, g);
      var t :| RelationshipGives(cat, rel, t, g);
      assert OwnRelationship(db, id, now, rel) && RelationshipGives(cat, rel, t, g);
    }
    if rel, t :| OwnRelationship(db, id, now, rel) && RelationshipGives(cat, rel, t, g) {
      ConferredHas(cat, rel, g);
      assert rel in rels && g in Conferred(cat, rel);
    }
  }

  /** A client holds a grant exactly when the account is an active client's and a live stored grant of
      its own on a named record, or a current relationship of its party, gives it. */
  lemma ClientGrantsComeFrom(cat: Catalog, db: Tables, id: string, now: int, g: Grant)
    ensures g in GrantsOf(cat, db, Actor(Client, id), now)
            <==> ActiveClient(db, id) && (FromRow(cat, db, id, now, g) || FromRelationship(cat, db, id, now, g))
  {
    if ActiveClient(db, id) {
      RowsHave(cat, db, id, now, g);
      RelationshipsHave(cat, db, id, now, g);
    }
  }

  // ------------------------------------------------------------------ every client grant is record-scoped

  predicate RecordScoped(g: Grant) { g.scope.Some? && g.scope.value.recordId.Some? }

  /** A current relationship confers something on a target whose record id is the empty text. */
  predicate NamelessTarget(cat: Catalog, rel: Relationship) {
    Confers(cat, rel) != [] && exists t :: t in Targets(rel) && t.1 == ""
  }

  ghost predicate NoNamelessTarget(cat: Catalog, db: Tables, id: string, now: int)
    requires id in db.principals
  {
    forall rel :: OwnRelationship(db, id, now, rel) ==> !NamelessTarget(cat, rel)
  }

  lemma StoredIsScoped(cat: Catalog, db: Tables, id: string, now: int, g: Grant)
    requires FromRow(cat, db, id, now, g)
    ensures RecordScoped(g)
  {
  }

  /** The source has it that client grants are always record-scoped. They are exactly when no current
      relationship of the party that confers anything names a resource with an empty id: an empty id is
      dropped from the scope, and the grant then reaches every record of its type. */
  lemma ClientGrantsAreScopedExactly(cat: Catalog, db: Tables, id: string, now: int)
    requires ActiveClient(db, id)
    ensures (forall g :: g in GrantsOf(cat, db, Actor(Client, id), now) ==> RecordScoped(g)) <==> NoNamelessTarget(cat, db, id, now)
  {
    if NoNamelessTarget(cat, db, id, now) {
      forall g | g in GrantsOf(cat, db, Actor(Client, id), now) ensures RecordScoped(g) {
        ClientGrantsComeFrom(cat, db, id, now, g);
        if rel, t :| OwnRelationship(db, id, now, rel) && RelationshipGives(cat, rel, t, g) {
          assert t.1 != "";
        } else {
          StoredIsScoped(cat, db, id, now, g);
        }
      }
    } else {
      var rel :| OwnRelationship(db, id, now, rel) && NamelessTarget(cat, rel);
      var t :| t in Targets(rel) && t.1 == "";
      var g := Grant(Confers(cat, rel)[0], ScopedTo(Some(t.0), Some(t.1), [], rel.expiresAt));
      assert RelationshipGives(cat, rel, t, g);
      ClientGrantsComeFrom(cat, db, id, now, g);
      assert !RecordScoped(g);
    }
  }

  const GUEST := Relationship("party", ("case", "c1"), "guest", false, 0, None, None, [], Some([("case", "")]))
  const ALL := Catalog(map[], map[], [], [])
  const ONE_GUEST := Tables(map["p" := Principal(true, false, true, "party")], map[], [], [GUEST])

  /** One such relationship, as the column admits it: a guest invited to the case with the empty id may read every case. */
  lemma UnscopedGrantExample(caseId: string)
    ensures ActiveClient(ONE_GUEST, "p") && !NoNamelessTarget(ALL, ONE_GUEST, "p", 0)
    ensures Can(ALL, ONE_GUEST, Actor(Client, "p"), "portal.case.read", Some(Resource("case", Some(caseId), None, None, None, false)), 0)
  {
    var resource := Resource("case", Some(caseId), None, None, None, false);
    assert Filter((c: Capability) => "portal." <= c && c !in PRINCIPAL_ONLY, []) == [];
    assert GUEST in ONE_GUEST.relationships && ("case", "") in Targets(GUEST);
    assert InvitedTo(ALL, GUEST) == [];
    assert Confers(ALL, GUEST) == ["portal.case.read"];
    assert NamelessTarget(ALL, GUEST);
    var g := Grant("portal.case.read", ScopedTo(Some("case"), Some(""), [], None));
    assert RelationshipGives(ALL, GUEST, ("case", ""), g);
    ClientGrantsComeFrom(ALL, ONE_GUEST, "p", 0, g);
    var grants := GrantsOf(ALL, ONE_GUEST, Actor(Client, "p"), 0);
    var i :| 0 <= i < |grants| && grants[i] == g;
    assert GrantReaches(grants[i], "portal.case.read", ContextsFor(Some(resource), 0)[0]);
  }

  /** No client grant has expired; one without any scope comes from an empty id. */
  lemma ClientGrantsAreInForce(cat: Catalog, db: Tables, id: string, now: int, g: Grant)
    requires g in GrantsOf(cat, db, Actor(Client, id), now)
    ensures g.scope.Some? && g.scope.value.expiresAt.Some? ==> now < g.scope.value.expiresAt.value
    ensures g.scope.None? ==> !NoNamelessTarget(cat, db, id, now)
  {
    ClientGrantsComeFrom(cat, db, id, now, g);
    ClientGrantsAreScopedExactly(cat, db, id, now);
  }

  // ------------------------------------------------------------------ what a client can reach

  /** Something the client holds names the record of this context. */
  ghost predicate NamedFor(cat: Catalog, db: Tables, id: string, now: int, capability: Capability, ctx: Context)
    requires id in db.principals
  {
    && ctx.recordId.Some?
    && ((exists r :: OwnRow(db, id, now, r) && r.recordId == ctx.recordId)
        || exists rel, t :: OwnRelationship(db, id, now, rel) && t in Targets(rel) && Some(t.1) == ctx.recordId
                            && (t.0 != "" ==> Some(t.0) == ctx.recordType) && capability in Confers(cat, rel))
  }

  /** Whatever a client may do to a record, the record is not internal, and it, its case or its property
      is one that a stored grant or a current relationship names. Without a record a client may do
      nothing. */
  lemma ClientReachesOnlyWhatIsNamed(cat: Catalog, db: Tables, id: string, capability: Capability, resource: Option<Resource>, now: int)
    requires Can(cat, db, Actor(Client, id), capability, resource, now) && ActiveClient(db, id) && NoNamelessTarget(cat, db, id, now)
    ensures resource.Some? && !resource.value.internal
    ensures exists k :: 0 <= k < |ContextsFor(resource, now)| && NamedFor(cat, db, id, now, capability, ContextsFor(resource, now)[k])
  {
    var grants := GrantsOf(cat, db, Actor(Client, id), now);
    var ctxs := ContextsFor(resource, now);
    var k :| 0 <= k < |ctxs| && HasCapability(cat, Actor(Client, id), grants, capability, ctxs[k]);
    var i :| 0 <= i < |grants| && GrantReaches(grants[i], capability, ctxs[k]);
    assert grants[i] in grants;
    ReachedIsNamed(cat, db, id, now, grants[i], capability, ctxs[k]);
  }

  lemma ReachedIsNamed(cat: Catalog, db: Tables, id: string, now: int, g: Grant, capability: Capability, ctx: Context)
    requires ActiveClient(db, id) && NoNamelessTarget(cat, db, id, now)
    requires g in GrantsOf(cat, db, Actor(Client, id), now) && GrantReaches(g, capability, ctx)
    ensures NamedFor(cat, db, id, now, capability, ctx)
  {
    ClientGrantsAreScopedExactly(cat, db, id, now);
    ClientGrantsComeFrom(cat, db, id, now, g);
    assert ctx.recordId == g.scope.value.recordId;
    if r :| OwnRow(db, id, now, r) && RowGives(cat, r, g) {
      assert r.recordId == ctx.recordId;
    } else {
      var rel, t :| OwnRelationship(db, id, now, rel) && RelationshipGives(cat, rel, t, g);
      assert Some(t.1) == ctx.recordId;
    }
  }

  /** Internal records stay closed to clients and visitors whatever they hold, restated or not. */
  lemma {:induction false} InternalStaysClosed(cat: Catalog, actor: Actor, grants: seq<Grant>, resource: Resource, now: int,
                                               capability: Capability, recordId: string, at: int)
    requires (actor.kind == Client || actor.kind == Visitor) && resource.internal
    ensures !Allows(cat, actor, grants, capability, Some(resource), now)
    ensures GrantsFor(cat, actor, grants, resource, now) == []
    ensures !HasCapability(cat, actor, GrantsFor(cat, actor, grants, resource, now), capability, RecordContext(resource, recordId, at))
    decreases |grants|
  {
    if grants != [] {
      InternalStaysClosed(cat, actor, grants[..|grants| - 1], resource, now, capability, recordId, at);
    }
  }

  // ------------------------------------------------------------------ what only principals hold

  predicate InvitedRole(role: string) { role in ["collaborator", "adviser", "guest", "specialist"] }

  /** The two floors as the catalog ships them. */
  predicate ShippedFloors(cat: Catalog) {
    && Preset(cat, "invited_collaborator") == ["portal.case.read", "portal.interest.respond"]
    && Preset(cat, "external_specialist") == ["portal.case.read", "portal.document.upload"]
  }

  /** An invited party is conferred portal capabilities alone, none of them a principal's; a specialist
      without an expiry is conferred nothing. */
  lemma InvitedStayInThePortal(cat: Catalog, rel: Relationship, c: Capability)
    requires ShippedFloors(cat) && InvitedRole(rel.role) && c in Confers(cat, rel)
    ensures "portal." <= c && c !in PRINCIPAL_ONLY && (rel.role == "specialist" ==> rel.expiresAt.Some?)
  {
    var widened := (c: Capability) => "portal." <= c && c !in PRINCIPAL_ONLY;
    FilterHas(widened, InvitedTo(cat, rel), c);
    FloorsArePortal();
  }

  lemma FloorsArePortal()
    ensures forall c :: c in ["portal.case.read", "portal.interest.respond", "portal.document.upload"] ==> "portal." <= c && c !in PRINCIPAL_ONLY
  {
    assert |"portal.case.read"| == 16 && |"portal.interest.respond"| == 23 && |"portal.document.upload"| == 22;
    assert |"portal.access.request"| == 21 && |"portal.brief.acknowledge"| == 24 && |"portal.proposal.respond"| == 23
           && |"portal.listing.acknowledge"| == 26;
    assert "portal.interest.respond"[7] != "portal.proposal.respond"[7];
  }

  /** The role under which a relationship may confer the capability, for those that only principals hold. */
  predicate PrincipalFor(rel: Relationship, c: Capability) {
    && !InvitedRole(rel.role)
    && (c == "portal.listing.acknowledge" ==> rel.role in SELLER_SIDE && rel.reviewed)
    && (c == "portal.brief.acknowledge" ==> rel.role in BRIEF_PARTIES)
  }

  /** A client who holds a principal's capability without a stored grant of it is a principal: some
      current relationship of the party has a principal's role for it, seller-side and reviewed where a
      listing is to be acknowledged. */
  lemma PrincipalOnlyNeedsPrincipal(cat: Catalog, db: Tables, id: string, now: int, g: Grant)
    requires ShippedFloors(cat) && g in GrantsOf(cat, db, Actor(Client, id), now) && g.capability in PRINCIPAL_ONLY
    ensures ActiveClient(db, id)
    ensures FromRow(cat, db, id, now, g)
            || exists rel, t :: OwnRelationship(db, id, now, rel) && RelationshipGives(cat, rel, t, g) && PrincipalFor(rel, g.capability)
  {
    ClientGrantsComeFrom(cat, db, id, now, g);
    if !FromRow(cat, db, id, now, g) {
      var rel, t :| OwnRelationship(db, id, now, rel) && RelationshipGives(cat, rel, t, g);
      ConferringRole(cat, rel, g.capability);
    }
  }

  lemma ConferringRole(cat: Catalog, rel: Relationship, c: Capability)
    requires ShippedFloors(cat) && c in Confers(cat, rel) && c in PRINCIPAL_ONLY
    ensures PrincipalFor(rel, c)
  {
    if InvitedRole(rel.role) {
      InvitedStayInThePortal(cat, rel, c);
    } else {
      FilterHas((c: Capability) => (c != "portal.listing.acknowledge" || (rel.role in SELLER_SIDE && rel.reviewed))
                                   && (c != "portal.brief.acknowledge" || rel.role in BRIEF_PARTIES), Preset(cat, "verified_client"), c);
    }
  }
}
