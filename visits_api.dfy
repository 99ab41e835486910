/** /api/visits: an organization logs a visit to an orphanage; every
    signed-in user lists the visits its role may see, newest first, one page
    at a time. */
module VisitsApi {
  import opened Http
  import opened Seqs
  import opened Store

  /** The GET query parameters. */
  datatype VisitQuery = VisitQuery(orphanageId: Option<string>, organizationId: Option<string>,
                                   page: Option<string>, limit: Option<string>)

  /** The `whereClause` the GET handler builds: each field that is set must
      match. */
  datatype Scope = Scope(orphanageId: Option<string>, organizationId: Option<string>)

  function InScope(s: Scope): Visit -> bool {
    (v: Visit) =>
      (s.orphanageId.Some? ==> v.orphanageId == s.orphanageId.value) &&
      (s.organizationId.Some? ==> v.organizationId == s.organizationId.value)
  }

  /** `orderBy: { visitDate: 'desc' }`. */
  predicate LatestFirst(a: Visit, b: Visit) {
    a.visitDate >= b.visitDate
  }

  lemma LatestFirstTotalPreorder()
    ensures TotalPreorder(LatestFirst)
  {
  }

  /** `if (x) whereClause.f = x`: an empty or missing filter adds nothing. */
  function Truthy(x: Option<string>): (r: Option<string>)
    ensures r.Some? <==> Present(x)
    ensures r.Some? ==> r == x
  {
    if Present(x) then x else None
  }

  /** The scope each role is given: an orphanage its own visits, an
      organization its own, an admin everything narrowed by the truthy
      filters. */
  ghost predicate ScopeFor(orphanages: map<string, OrphanageProfile>, organizations: map<string, OrganizationProfile>,
                           s: Session, q: VisitQuery, scope: Scope) {
    match s.role
    case Orphanage => exists p :: IsOrphanageOf(orphanages, s.userId, p) && scope == Scope(Some(p.id), None)
    case Organization => exists o :: IsOrganizationOf(organizations, s.userId, o) && scope == Scope(None, Some(o.id))
    case Admin => scope == Scope(Truthy(q.orphanageId), Truthy(q.organizationId))
    case Unrecognized => false
  }

  /** The caller passes the role and profile checks of GET: any administrator,
      and an orphanage or organization user with a profile. */
  predicate HasScope(orphanages: map<string, OrphanageProfile>, organizations: map<string, OrganizationProfile>,
                     session: Option<Session>) {
    session.Some? &&
    match session.value.role
    case Orphanage => !NoOrphanage(orphanages, session.value.userId)
    case Organization => !NoOrganization(organizations, session.value.userId)
    case Admin => true
    case Unrecognized => false
  }

  /** The scoping part of GET, lines that fill in `whereClause`. */
  method ScopeOf(db: Database, session: Option<Session>, q: VisitQuery) returns (r: Response<Scope>)
    requires db.Valid()
    ensures session.None? ==> r == Err(401, "Unauthorized")
    ensures session.Some? && session.value.role == Orphanage && NoOrphanage(db.orphanages, session.value.userId) ==>
              r == Err(404, "Orphanage profile not found")
    ensures session.Some? && session.value.role == Organization && NoOrganization(db.organizations, session.value.userId) ==>
              r == Err(404, "Organization profile not found")
    ensures session.Some? && session.value.role == Unrecognized ==> r == Err(403, "Forbidden")
    ensures r.Ok? <==> HasScope(db.orphanages, db.organizations, session)
    ensures r.Ok? ==> ScopeFor(db.orphanages, db.organizations, session.value, q, r.value)
  {
    if session.None? {
      return Err(401, "Unauthorized");
    }
    var where := Scope(None, None);
    var s := session.value;
    match s.role {
      case Orphanage =>
        var p := db.OrphanageOfUser(s.userId);
        if p.None? {
          return Err(404, "Orphanage profile not found");
        }
        where := where.(orphanageId := Some(p.value.id));
      case Organization =>
        var o := db.OrganizationOfUser(s.userId);
        if o.None? {
          return Err(404, "Organization profile not found");
        }
        where := where.(organizationId := Some(o.value.id));
      case Admin =>
        if Present(q.orphanageId) {
          where := where.(orphanageId := q.orphanageId);
        }
        if Present(q.organizationId) {
          where := where.(organizationId := q.organizationId);
        }
      case Unrecognized =>
        return Err(403, "Forbidden");
    }
    r := Ok(where);
  }

  /** r is one window of the visits in scope, newest first. */
  ghost predicate IsVisitPage(r: seq<Visit>, visits: map<string, Visit>, scope: Scope, skip: nat, take: nat) {
    exists total :: IsSelection(r, total, visits, InScope(scope), LatestFirst, skip, take)
  }

  /** GET. The window is `skip = (page - 1) * limit`, `take = limit` with
      the defaults 1 and 20; the store rejects a NaN one or a negative skip,
      which the catch turns into a 500, and so does a negative take here (see
      Http.Window). */
  method ListVisits(db: Database, session: Option<Session>, q: VisitQuery) returns (r: Response<seq<Visit>>)
    requires db.Valid()
    ensures session.None? ==> r == Err(401, "Unauthorized")
    ensures session.Some? && session.value.role == Orphanage && NoOrphanage(db.orphanages, session.value.userId) ==>
              r == Err(404, "Orphanage profile not found")
    ensures session.Some? && session.value.role == Organization && NoOrganization(db.organizations, session.value.userId) ==>
              r == Err(404, "Organization profile not found")
    ensures session.Some? && session.value.role == Unrecognized ==> r == Err(403, "Forbidden")
    ensures HasScope(db.orphanages, db.organizations, session) ==>
              (Window(ParseInt(OrDefault(q.page, "1")), ParseInt(OrDefault(q.limit, "20"))).None? <==>
               r == Err(500, "Internal Server Error"))
    ensures r.Ok? <==> HasScope(db.orphanages, db.organizations, session) &&
                       Window(ParseInt(OrDefault(q.page, "1")), ParseInt(OrDefault(q.limit, "20"))).Some?
    ensures r.Ok? ==>
              && session.Some?
              && Window(ParseInt(OrDefault(q.page, "1")), ParseInt(OrDefault(q.limit, "20"))).Some?
              && var (skip, take) := Window(ParseInt(OrDefault(q.page, "1")), ParseInt(OrDefault(q.limit, "20"))).value;
                 (exists scope :: ScopeFor(db.orphanages, db.organizations, session.value, q, scope) &&
                                  IsVisitPage(r.value, db.visits, scope, skip, take))
                 && |r.value| <= take
    ensures r.Ok? ==> SortedBy(r.value, LatestFirst) && forall i :: 0 <= i < |r.value| ==> r.value[i] in db.visits.Values
    ensures r.Ok? && session.value.role == Orphanage ==>
              forall i :: 0 <= i < |r.value| ==>
                r.value[i].orphanageId in db.orphanages && db.orphanages[r.value[i].orphanageId].userId == session.value.userId
    ensures r.Ok? && session.value.role == Organization ==>
              forall i :: 0 <= i < |r.value| ==>
                r.value[i].organizationId in db.organizations &&
                db.organizations[r.value[i].organizationId].userId == session.value.userId
  {
    var scoped := ScopeOf(db, session, q);
    if scoped.Err? {
      return Err(scoped.status, scoped.message);
    }
    var w := Window(ParseInt(OrDefault(q.page, "1")), ParseInt(OrDefault(q.limit, "20")));
    if w.None? {
      return Err(500, "Internal Server Error");
    }
    var (skip, take) := w.value;
    var rows, total := Select(db.visits, InScope(scoped.value), LatestFirst, skip, take);
    LatestFirstTotalPreorder();
    OnlyOwnVisits(db.orphanages, db.organizations, session.value, q, scoped.value, rows);
    assert IsVisitPage(rows, db.visits, scoped.value, skip, take);
    r := Ok(rows);
  }

  /** Whatever lies in the scope of an orphanage or organization user
      belongs to that user's own profile. */
  lemma OnlyOwnVisits(orphanages: map<string, OrphanageProfile>, organizations: map<string, OrganizationProfile>,
                      s: Session, q: VisitQuery, scope: Scope, rows: seq<Visit>)
    requires ScopeFor(orphanages, organizations, s, q, scope)
    requires forall i :: 0 <= i < |rows| ==> InScope(scope)(rows[i])
    ensures s.role == Orphanage ==>
              forall i :: 0 <= i < |rows| ==> rows[i].orphanageId in orphanages && orphanages[rows[i].orphanageId].userId == s.userId
    ensures s.role == Organization ==>
              forall i :: 0 <= i < |rows| ==>
                rows[i].organizationId in organizations && organizations[rows[i].organizationId].userId == s.userId
  {
    if s.role == Orphanage {
      var p :| IsOrphanageOf(orphanages, s.userId, p) && scope == Scope(Some(p.id), None);
      forall i | 0 <= i < |rows| ensures rows[i].orphanageId == p.id {
        assert InScope(scope)(rows[i]);
      }
    } else if s.role == Organization {
      var o :| IsOrganizationOf(organizations, s.userId, o) && scope == Scope(None, Some(o.id));
      forall i | 0 <= i < |rows| ensures rows[i].organizationId == o.id {
        assert InScope(scope)(rows[i]);
      }
    }
  }

  /** The purposes a visit may be logged for. */
  const ValidPurposes: seq<string> := ["DONATION", "TEACHING", "WORKSHOP", "ONLINE_CLASS", "VOLUNTEERING"]

  /** The JSON body of POST. */
  datatype VisitBody = VisitBody(orphanageId: Option<string>, visitDate: Option<string>,
                                 purpose: Option<string>, notes: Option<string>)

  /** `notes || null`: an empty note is stored as no note. */
  function StoredNotes(notes: Option<string>): (r: Option<string>)
    ensures r.None? <==> !Present(notes)
    ensures r.Some? ==> r == notes && r.value != ""
  {
    if Present(notes) then notes else None
  }

  /** POST: the caller's organization logs a visit. `parseDate` is
      `new Date(visitDate)`, None for text that is not a date (the store
      then refuses the row, and the catch answers 500). */
  method LogVisit(db: Database, session: Option<Session>, body: VisitBody,
                  parseDate: string -> Option<int>, newId: string) returns (r: Response<Visit>)
    requires db.Valid()
    modifies db`visits
    ensures db.Valid()
    ensures !IsOrganizationSession(session) ==> r == Err(401, "Unauthorized")
    ensures IsOrganizationSession(session) && (!Present(body.orphanageId) || !Present(body.visitDate) || !Present(body.purpose)) ==>
              r == Err(400, "Missing required fields")
    ensures (IsOrganizationSession(session) && Present(body.orphanageId) && Present(body.visitDate) && Present(body.purpose) &&
             body.purpose.value !in ValidPurposes) ==>
              r == Err(400, "Invalid purpose")
    ensures (IsOrganizationSession(session) && Present(body.orphanageId) && Present(body.visitDate) && Present(body.purpose) &&
             body.purpose.value in ValidPurposes && NoOrganization(db.organizations, session.value.userId)) ==>
              r == Err(404, "Organization profile not found")
    ensures (IsOrganizationSession(session) && Present(body.orphanageId) && Present(body.visitDate) && Present(body.purpose) &&
             body.purpose.value in ValidPurposes && !NoOrganization(db.organizations, session.value.userId) &&
             body.orphanageId.value !in db.orphanages) ==>
              r == Err(404, "Orphanage not found")
    ensures (IsOrganizationSession(session) && Present(body.orphanageId) && Present(body.visitDate) && Present(body.purpose) &&
             body.purpose.value in ValidPurposes && !NoOrganization(db.organizations, session.value.userId) &&
             body.orphanageId.value in db.orphanages) ==>
              (r.Ok? <==> parseDate(body.visitDate.value).Some? && newId !in old(db.visits))
    ensures r.Ok? ==>
              && IsOrganizationSession(session)
              && body.orphanageId.Some? && body.visitDate.Some? && body.purpose.Some?
              && body.purpose.value in ValidPurposes
              && body.orphanageId.value in db.orphanages
              && r.value.organizationId in db.organizations
              && IsOrganizationOf(db.organizations, session.value.userId, db.organizations[r.value.organizationId])
              && parseDate(body.visitDate.value).Some?
              && r.value == Visit(newId, body.orphanageId.value, r.value.organizationId,
                                  parseDate(body.visitDate.value).value, body.purpose.value, StoredNotes(body.notes))
              && newId !in old(db.visits) && db.visits == old(db.visits)[newId := r.value]
    ensures r.Err? ==> db.visits == old(db.visits)
  {
    if !IsOrganizationSession(session) {
      return Err(401, "Unauthorized");
    }
    if !Present(body.orphanageId) || !Present(body.visitDate) || !Present(body.purpose) {
      return Err(400, "Missing required fields");
    }
    if body.purpose.value !in ValidPurposes {
      return Err(400, "Invalid purpose");
    }
    var caller := CallerOrganization(db, session);
    if caller.Err? {
      return Err(caller.status, caller.message);
    }
    if body.orphanageId.value !in db.orphanages {
      return Err(404, "Orphanage not found");
    }
    var date := parseDate(body.visitDate.value);
    if date.None? || newId in db.visits {
      return Err(500, "Internal Server Error");
    }
    var v := Visit(newId, body.orphanageId.value, caller.value.id, date.value, body.purpose.value, StoredNotes(body.notes));
    db.visits := db.visits[newId := v];
    r := Ok(v);
  }

  /** A logged visit falls in the scope GET gives its organization and in
      the scope it gives the visited orphanage. */
  lemma LoggedVisitIsListed(orphanages: map<string, OrphanageProfile>, organizations: map<string, OrganizationProfile>,
                            v: Visit, o: OrganizationProfile, p: OrphanageProfile, q: VisitQuery)
    requires IsOrganizationOf(organizations, o.userId, o) && v.organizationId == o.id
    requires IsOrphanageOf(orphanages, p.userId, p) && v.orphanageId == p.id
    ensures exists scope :: ScopeFor(orphanages, organizations, Session(o.userId, Organization), q, scope) && InScope(scope)(v)
    ensures exists scope :: ScopeFor(orphanages, organizations, Session(p.userId, Orphanage), q, scope) && InScope(scope)(v)
  {
    var byOrg := Scope(None, Some(o.id));
    assert ScopeFor(orphanages, organizations, Session(o.userId, Organization), q, byOrg) && InScope(byOrg)(v);
    var byOrphanage := Scope(Some(p.id), None);
    assert ScopeFor(orphanages, organizations, Session(p.userId, Orphanage), q, byOrphanage) && InScope(byOrphanage)(v);
  }
}
