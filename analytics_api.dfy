/** `GET /api/analytics`: visit statistics over a recent period, for the
    orphanage or organization of the session's user, or for the whole
    platform for administrators. */
module AnalyticsApi {
  import opened Seqs
  import opened Http
  import opened Store
  import opened Histograms

  /** How many months back the period starts: 1, 3 or 6 for the matching
      `timeframe`, a year for "12months" and for anything else. */
  function MonthsBack(timeframe: Option<string>): (n: nat)
    ensures n in {1, 3, 6, 12}
    ensures !Present(timeframe) ==> n == 12
  {
    match OrDefault(timeframe, "12months")
    case "1month" => 1
    case "3months" => 3
    case "6months" => 6
    case _ => 12
  }

  /** The month key of a date: the first seven characters (`YYYY-MM`) of its
      ISO text, which `iso` produces. */
  function MonthOf(iso: int -> string, date: int): (m: string)
    ensures |m| <= 7
  {
    Take(iso(date), 7)
  }

  function Purposes(vs: seq<Visit>): (r: seq<string>)
    ensures |r| == |vs| && forall i :: 0 <= i < |vs| ==> r[i] == vs[i].purpose
  {
    seq(|vs|, i requires 0 <= i < |vs| => vs[i].purpose)
  }

  function Months(vs: seq<Visit>, iso: int -> string): (r: seq<string>)
    ensures |r| == |vs| && forall i :: 0 <= i < |vs| ==> r[i] == MonthOf(iso, vs[i].visitDate)
  {
    seq(|vs|, i requires 0 <= i < |vs| => MonthOf(iso, vs[i].visitDate))
  }

  function OrganizationIds(vs: seq<Visit>): (r: seq<string>)
    ensures |r| == |vs| && forall i :: 0 <= i < |vs| ==> r[i] == vs[i].organizationId
  {
    seq(|vs|, i requires 0 <= i < |vs| => vs[i].organizationId)
  }

  function OrphanageIds(vs: seq<Visit>): (r: seq<string>)
    ensures |r| == |vs| && forall i :: 0 <= i < |vs| ==> r[i] == vs[i].orphanageId
  {
    seq(|vs|, i requires 0 <= i < |vs| => vs[i].orphanageId)
  }

  /** The names of the organizations of the visits, through the visit's
      relation; None when a visit's organization row is missing. */
  function OrganizationNames(vs: seq<Visit>, orgs: map<string, OrganizationProfile>): (r: Option<seq<string>>)
    ensures r.Some? <==> forall i :: 0 <= i < |vs| ==> vs[i].organizationId in orgs
    ensures r.Some? ==> |r.value| == |vs| && forall i :: 0 <= i < |vs| ==> r.value[i] == orgs[vs[i].organizationId].name
  {
    if forall i :: 0 <= i < |vs| ==> vs[i].organizationId in orgs
    then Some(seq(|vs|, i requires 0 <= i < |vs| => orgs[vs[i].organizationId].name))
    else None
  }

  function OrphanageNames(vs: seq<Visit>, orphanages: map<string, OrphanageProfile>): (r: Option<seq<string>>)
    ensures r.Some? <==> forall i :: 0 <= i < |vs| ==> vs[i].orphanageId in orphanages
    ensures r.Some? ==> |r.value| == |vs| && forall i :: 0 <= i < |vs| ==> r.value[i] == orphanages[vs[i].orphanageId].name
  {
    if forall i :: 0 <= i < |vs| ==> vs[i].orphanageId in orphanages
    then Some(seq(|vs|, i requires 0 <= i < |vs| => orphanages[vs[i].orphanageId].name))
    else None
  }

  datatype OrphanageStats = OrphanageStats(
    totalVisits: nat, uniqueOrganizations: nat, activeNeeds: nat, pendingEvents: nat,
    purposeBreakdown: Histogram, monthlyVisits: Histogram, topOrganizations: Histogram)

  datatype OrganizationStats = OrganizationStats(
    totalVisits: nat, uniqueOrphanages: nat, totalEvents: nat, approvedEvents: nat,
    purposeBreakdown: Histogram, monthlyVisits: Histogram, topOrphanages: Histogram)

  datatype PlatformStats = PlatformStats(
    totalUsers: nat, totalOrphanages: nat, totalOrganizations: nat, totalVisits: nat, totalEvents: nat,
    purposeBreakdown: Histogram, monthlyVisits: Histogram)

  datatype Analytics = ForOrphanage(o: OrphanageStats) | ForOrganization(g: OrganizationStats) | ForAdmin(a: PlatformStats)

  /** The statistics of an orphanage computed from its visits of the period
      and the two counts. */
  function OrphanageStatsOf(vs: seq<Visit>, names: seq<string>, iso: int -> string,
                            activeNeeds: nat, pendingEvents: nat): OrphanageStats {
    OrphanageStats(|vs|, SetSize(OrganizationIds(vs)), activeNeeds, pendingEvents,
                   Tally(Purposes(vs)), Tally(Months(vs, iso)), Top5(Tally(names)))
  }

  function OrganizationStatsOf(vs: seq<Visit>, names: seq<string>, iso: int -> string,
                               totalEvents: nat, approvedEvents: nat): OrganizationStats {
    OrganizationStats(|vs|, SetSize(OrphanageIds(vs)), totalEvents, approvedEvents,
                      Tally(Purposes(vs)), Tally(Months(vs, iso)), Top5(Tally(names)))
  }

  /** The breakdowns of any statistics cover every visit once: their counts
      add up to the visit total; the distinct visitors are at most the
      visits; the top list shows at most five visitors, largest first, and
      no visitor left out had more visits than one shown. */
  lemma OrphanageStatsFacts(vs: seq<Visit>, names: seq<string>, iso: int -> string, activeNeeds: nat, pendingEvents: nat)
    requires |names| == |vs|
    ensures var s := OrphanageStatsOf(vs, names, iso, activeNeeds, pendingEvents);
            Total(s.purposeBreakdown) == s.totalVisits && Total(s.monthlyVisits) == s.totalVisits &&
            s.uniqueOrganizations <= s.totalVisits && s.uniqueOrganizations == |Tally(OrganizationIds(vs))| &&
            |s.topOrganizations| <= 5 && Total(Tally(names)) == s.totalVisits &&
            (forall i, j :: 0 <= i < j < |s.topOrganizations| ==> s.topOrganizations[i].1 >= s.topOrganizations[j].1) &&
            (forall e :: e in Tally(names) && e !in s.topOrganizations ==>
               forall i :: 0 <= i < |s.topOrganizations| ==> s.topOrganizations[i].1 >= e.1)
  {
    TallyTotal(Purposes(vs));
    TallyTotal(Months(vs, iso));
    TallyTotal(names);
    SetSizeIsTallySize(OrganizationIds(vs));
    TallyFacts(names);
    Top5Facts(Tally(names));
  }

  /** The visit filter of the orphanage query: visits to id on or after start. */
  function VisitsTo(id: string, start: int): Visit -> bool {
    (v: Visit) => v.orphanageId == id && v.visitDate >= start
  }

  function VisitsBy(id: string, start: int): Visit -> bool {
    (v: Visit) => v.organizationId == id && v.visitDate >= start
  }

  function VisitsSince(start: int): Visit -> bool {
    (v: Visit) => v.visitDate >= start
  }

  /** The relation's rows carry no order of their own. */
  predicate AnyOrder(a: Visit, b: Visit) { true }

  function NeedsActiveOf(id: string): Need -> bool {
    (n: Need) => n.orphanageId == id && n.status == "ACTIVE"
  }

  function EventsPendingOf(id: string): Event -> bool {
    (e: Event) => e.orphanageId == id && e.status == Pending
  }

  function EventsOf(id: string): Event -> bool {
    (e: Event) => e.organizationId == id
  }

  function EventsApprovedOf(id: string): Event -> bool {
    (e: Event) => e.organizationId == id && e.status == Approved
  }

  function AllRows<T>(): T -> bool {
    (x: T) => true
  }

  /** a is what the orphanage analytics report for orphanage profile p:
      its visits of the period in some order, their organization names, and
      the counts of its active needs and pending events. */
  ghost predicate OrphanageReport(p: OrphanageProfile, visits: map<string, Visit>, orgs: map<string, OrganizationProfile>,
                                  needs: map<string, Need>, events: map<string, Event>, start: int, iso: int -> string,
                                  a: OrphanageStats)
  {
    exists vs, names :: IsOrdering(vs, visits, VisitsTo(p.id, start), AnyOrder) &&
      OrganizationNames(vs, orgs) == Some(names) &&
      a == OrphanageStatsOf(vs, names, iso, |MatchingKeys(needs, NeedsActiveOf(p.id))|, |MatchingKeys(events, EventsPendingOf(p.id))|)
  }

  ghost predicate OrganizationReport(g: OrganizationProfile, visits: map<string, Visit>, orphanages: map<string, OrphanageProfile>,
                                     events: map<string, Event>, start: int, iso: int -> string, a: OrganizationStats)
  {
    exists vs, names :: IsOrdering(vs, visits, VisitsBy(g.id, start), AnyOrder) &&
      OrphanageNames(vs, orphanages) == Some(names) &&
      a == OrganizationStatsOf(vs, names, iso, |MatchingKeys(events, EventsOf(g.id))|, |MatchingKeys(events, EventsApprovedOf(g.id))|)
  }

  lemma OrphanageReportIntro(p: OrphanageProfile, visits: map<string, Visit>, orgs: map<string, OrganizationProfile>,
                             needs: map<string, Need>, events: map<string, Event>, start: int, iso: int -> string,
                             vs: seq<Visit>, names: seq<string>, a: OrphanageStats)
    requires IsOrdering(vs, visits, VisitsTo(p.id, start), AnyOrder)
    requires OrganizationNames(vs, orgs) == Some(names)
    requires a == OrphanageStatsOf(vs, names, iso, |MatchingKeys(needs, NeedsActiveOf(p.id))|, |MatchingKeys(events, EventsPendingOf(p.id))|)
    ensures OrphanageReport(p, visits, orgs, needs, events, start, iso, a)
  {
  }

  lemma OrganizationReportIntro(g: OrganizationProfile, visits: map<string, Visit>, orphanages: map<string, OrphanageProfile>,
                                events: map<string, Event>, start: int, iso: int -> string,
                                vs: seq<Visit>, names: seq<string>, a: OrganizationStats)
    requires IsOrdering(vs, visits, VisitsBy(g.id, start), AnyOrder)
    requires OrphanageNames(vs, orphanages) == Some(names)
    requires a == OrganizationStatsOf(vs, names, iso, |MatchingKeys(events, EventsOf(g.id))|, |MatchingKeys(events, EventsApprovedOf(g.id))|)
    ensures OrganizationReport(g, visits, orphanages, events, start, iso, a)
  {
  }

  /** Every visit to orphanage id since start still has its organization row. */
  predicate OrganizationsResolved(id: string, start: int, visits: map<string, Visit>, orgs: map<string, OrganizationProfile>) {
    forall k :: k in visits && VisitsTo(id, start)(visits[k]) ==> visits[k].organizationId in orgs
  }

  /** Every visit by organization id since start still has its orphanage row. */
  predicate OrphanagesResolved(id: string, start: int, visits: map<string, Visit>, orphanages: map<string, OrphanageProfile>) {
    forall k :: k in visits && VisitsBy(id, start)(visits[k]) ==> visits[k].orphanageId in orphanages
  }

  /** Over all the visits of the period, the names resolve exactly when no
      visit has lost its organization row. */
  lemma OrganizationsResolvedIffNamed(vs: seq<Visit>, visits: map<string, Visit>, orgs: map<string, OrganizationProfile>,
                                      id: string, start: int)
    requires forall i :: 0 <= i < |vs| ==> VisitsTo(id, start)(vs[i]) && vs[i] in visits.Values
    requires forall k :: k in visits && VisitsTo(id, start)(visits[k]) ==> visits[k] in vs
    ensures OrganizationsResolved(id, start, visits, orgs) <==> OrganizationNames(vs, orgs).Some?
  {
    if OrganizationNames(vs, orgs).None? {
      var i :| 0 <= i < |vs| && vs[i].organizationId !in orgs;
      assert vs[i] in visits.Values;
    } else {
      forall k | k in visits && VisitsTo(id, start)(visits[k]) ensures visits[k].organizationId in orgs {
        var i :| 0 <= i < |vs| && vs[i] == visits[k];
      }
    }
  }

  lemma OrphanagesResolvedIffNamed(vs: seq<Visit>, visits: map<string, Visit>, orphanages: map<string, OrphanageProfile>,
                                   id: string, start: int)
    requires forall i :: 0 <= i < |vs| ==> VisitsBy(id, start)(vs[i]) && vs[i] in visits.Values
    requires forall k :: k in visits && VisitsBy(id, start)(visits[k]) ==> visits[k] in vs
    ensures OrphanagesResolved(id, start, visits, orphanages) <==> OrphanageNames(vs, orphanages).Some?
  {
    if OrphanageNames(vs, orphanages).None? {
      var i :| 0 <= i < |vs| && vs[i].orphanageId !in orphanages;
      assert vs[i] in visits.Values;
    } else {
      forall k | k in visits && VisitsBy(id, start)(visits[k]) ensures visits[k].orphanageId in orphanages {
        var i :| 0 <= i < |vs| && vs[i] == visits[k];
      }
    }
  }

  /** The three reduces and the top list over the visits. */
  method Breakdowns(vs: seq<Visit>, names: seq<string>, iso: int -> string) returns (purposes: Histogram, monthly: Histogram, top: Histogram)
    ensures purposes == Tally(Purposes(vs)) && monthly == Tally(Months(vs, iso)) && top == Top5(Tally(names))
  {
    purposes := Count(Purposes(vs));
    monthly := Count(Months(vs, iso));
    var byName := Count(names);
    top := Top5(byName);
  }

  /** The queries and reduces of the orphanage analytics for profile p;
      None when a visit of the period has lost its organization row. */
  method ReportForOrphanage(p: OrphanageProfile, visits: map<string, Visit>, orgs: map<string, OrganizationProfile>,
                            needs: map<string, Need>, events: map<string, Event>, start: int, iso: int -> string)
    returns (r: Option<OrphanageStats>)
    ensures r.Some? ==> OrphanageReport(p, visits, orgs, needs, events, start, iso, r.value)
    ensures r.Some? <==> OrganizationsResolved(p.id, start, visits, orgs)
  {
    var vs := SelectAll(visits, VisitsTo(p.id, start), AnyOrder);
    var names := OrganizationNames(vs, orgs);
    OrganizationsResolvedIffNamed(vs, visits, orgs, p.id, start);
    if names.None? {
      return None;
    }
    var purposes, monthly, top := Breakdowns(vs, names.value, iso);
    var activeNeeds := CountRows(needs, NeedsActiveOf(p.id));
    var pendingEvents := CountRows(events, EventsPendingOf(p.id));
    var stats := OrphanageStats(|vs|, SetSize(OrganizationIds(vs)), activeNeeds, pendingEvents, purposes, monthly, top);
    OrphanageReportIntro(p, visits, orgs, needs, events, start, iso, vs, names.value, stats);
    r := Some(stats);
  }

  method ReportForOrganization(g: OrganizationProfile, visits: map<string, Visit>, orphanages: map<string, OrphanageProfile>,
                               events: map<string, Event>, start: int, iso: int -> string)
    returns (r: Option<OrganizationStats>)
    ensures r.Some? ==> OrganizationReport(g, visits, orphanages, events, start, iso, r.value)
    ensures r.Some? <==> OrphanagesResolved(g.id, start, visits, orphanages)
  {
    var vs := SelectAll(visits, VisitsBy(g.id, start), AnyOrder);
    var names := OrphanageNames(vs, orphanages);
    OrphanagesResolvedIffNamed(vs, visits, orphanages, g.id, start);
    if names.None? {
      return None;
    }
    var purposes, monthly, top := Breakdowns(vs, names.value, iso);
    var totalEvents := CountRows(events, EventsOf(g.id));
    var approvedEvents := CountRows(events, EventsApprovedOf(g.id));
    var stats := OrganizationStats(|vs|, SetSize(OrphanageIds(vs)), totalEvents, approvedEvents, purposes, monthly, top);
    OrganizationReportIntro(g, visits, orphanages, events, start, iso, vs, names.value, stats);
    r := Some(stats);
  }

  /** r is the orphanage analytics of user userId: 404 exactly when the user
      has no orphanage profile; for the profile stored under k, 500 exactly
      when a visit of the period has lost its organization row, otherwise
      the report of that profile. */
  ghost predicate OrphanageAnswer(db: Database, userId: string, start: int, iso: int -> string, r: Response<Analytics>)
    reads db
  {
    ((forall k :: k in db.orphanages ==> db.orphanages[k].userId != userId) <==> r == Err(404, "Orphanage profile not found")) &&
    (r.Err? ==> r == Err(404, "Orphanage profile not found") || r == Err(500, "Internal Server Error")) &&
    (forall k :: k in db.orphanages && db.orphanages[k].userId == userId ==>
       (r == Err(500, "Internal Server Error") <==> !OrganizationsResolved(k, start, db.visits, db.organizations))) &&
    (r.Ok? ==> (r.value.ForOrphanage? &&
       exists p :: p in db.orphanages.Values && p.userId == userId &&
         OrphanageReport(p, db.visits, db.organizations, db.needs, db.events, start, iso, r.value.o)))
  }

  /** r is the organization analytics of user userId, likewise, with 500
      exactly when a visit of the period has lost its orphanage row. */
  ghost predicate OrganizationAnswer(db: Database, userId: string, start: int, iso: int -> string, r: Response<Analytics>)
    reads db
  {
    ((forall k :: k in db.organizations ==> db.organizations[k].userId != userId) <==> r == Err(404, "Organization profile not found")) &&
    (r.Err? ==> r == Err(404, "Organization profile not found") || r == Err(500, "Internal Server Error")) &&
    (forall k :: k in db.organizations && db.organizations[k].userId == userId ==>
       (r == Err(500, "Internal Server Error") <==> !OrphanagesResolved(k, start, db.visits, db.orphanages))) &&
    (r.Ok? ==> (r.value.ForOrganization? &&
       exists g :: g in db.organizations.Values && g.userId == userId &&
         OrganizationReport(g, db.visits, db.orphanages, db.events, start, iso, r.value.g)))
  }

  /** stats are the platform counts and the breakdowns of the visits since
      start. */
  ghost predicate PlatformAnswer(db: Database, start: int, iso: int -> string, stats: PlatformStats)
    reads db
  {
    stats.totalUsers == |db.users| && stats.totalOrphanages == |db.orphanages| &&
    stats.totalOrganizations == |db.organizations| && stats.totalEvents == |db.events| &&
    stats.totalVisits == |MatchingKeys(db.visits, VisitsSince(start))| &&
    (exists vs :: IsOrdering(vs, db.visits, VisitsSince(start), AnyOrder) &&
       stats.purposeBreakdown == Tally(Purposes(vs)) && stats.monthlyVisits == Tally(Months(vs, iso))) &&
    Total(stats.purposeBreakdown) == stats.totalVisits && Total(stats.monthlyVisits) == stats.totalVisits
  }

  /** The analytics of an orphanage user: 404 without a profile, 500 when a
      visit's organization cannot be read. */
  method OrphanageAnalytics(db: Database, userId: string, start: int, iso: int -> string) returns (r: Response<Analytics>)
    requires db.Valid()
    ensures OrphanageAnswer(db, userId, start, iso, r)
  {
    var profile := db.OrphanageOfUser(userId);
    if profile.None? {
      return Err(404, "Orphanage profile not found");
    }
    var p := profile.value;
    var report := ReportForOrphanage(p, db.visits, db.organizations, db.needs, db.events, start, iso);
    if report.None? {
      return Err(500, "Internal Server Error");
    }
    assert p in db.orphanages.Values;
    r := Ok(ForOrphanage(report.value));
  }

  /** The analytics of an organization user. */
  method OrganizationAnalytics(db: Database, userId: string, start: int, iso: int -> string) returns (r: Response<Analytics>)
    requires db.Valid()
    ensures OrganizationAnswer(db, userId, start, iso, r)
  {
    var profile := db.OrganizationOfUser(userId);
    if profile.None? {
      return Err(404, "Organization profile not found");
    }
    var g := profile.value;
    var report := ReportForOrganization(g, db.visits, db.orphanages, db.events, start, iso);
    if report.None? {
      return Err(500, "Internal Server Error");
    }
    assert g in db.organizations.Values;
    r := Ok(ForOrganization(report.value));
  }

  /** The platform-wide analytics of an administrator: the visit total is
      a count of its own, over the same period as the breakdowns. */
  method PlatformAnalytics(db: Database, start: int, iso: int -> string) returns (stats: PlatformStats)
    ensures PlatformAnswer(db, start, iso, stats)
  {
    var users := CountRows(db.users, AllRows());
    var orphanages := CountRows(db.orphanages, AllRows());
    var organizations := CountRows(db.organizations, AllRows());
    var events := CountRows(db.events, AllRows());
    var counted := CountRows(db.visits, VisitsSince(start));
    var vs := SelectAll(db.visits, VisitsSince(start), AnyOrder);
    var purposes := Count(Purposes(vs));
    var monthly := Count(Months(vs, iso));
    AllKeysMatch(db.users);
    AllKeysMatch(db.orphanages);
    AllKeysMatch(db.organizations);
    AllKeysMatch(db.events);
    TallyTotal(Purposes(vs));
    TallyTotal(Months(vs, iso));
    stats := PlatformStats(users, orphanages, organizations, counted, events, purposes, monthly);
  }

  lemma AllKeysMatch<T>(m: map<string, T>)
    ensures |MatchingKeys(m, AllRows())| == |m|
  {
    assert MatchingKeys(m, AllRows()) == m.Keys;
  }

  const Unauthorized := "Unauthorized"

  /** The handler: 401 without a session, 403 for a role without analytics,
      otherwise the analytics of the user's role over the period that starts
      `MonthsBack(timeframe)` months before now (`startOf` does the calendar
      arithmetic). */
  method GetAnalytics(db: Database, session: Option<Session>, timeframe: Option<string>,
                      startOf: nat -> int, iso: int -> string) returns (r: Response<Analytics>)
    requires db.Valid()
    ensures session.None? <==> r == Err(401, Unauthorized)
    ensures session.Some? && session.value.role == Unrecognized <==> r == Err(403, "Forbidden")
    ensures r.Ok? ==> (session.Some? &&
              match r.value
               case ForOrphanage(_) => session.value.role == Orphanage
               case ForOrganization(_) => session.value.role == Organization
               case ForAdmin(_) => session.value.role == Admin)
    ensures session.Some? && session.value.role == Orphanage ==>
              OrphanageAnswer(db, session.value.userId, startOf(MonthsBack(timeframe)), iso, r)
    ensures session.Some? && session.value.role == Organization ==>
              OrganizationAnswer(db, session.value.userId, startOf(MonthsBack(timeframe)), iso, r)
    ensures session.Some? && session.value.role == Admin ==>
              r.Ok? && r.value.ForAdmin? && PlatformAnswer(db, startOf(MonthsBack(timeframe)), iso, r.value.a)
  {
    if session.None? {
      return Err(401, Unauthorized);
    }
    var start := startOf(MonthsBack(timeframe));
    match session.value.role {
      case Orphanage =>
        r := OrphanageAnalytics(db, session.value.userId, start, iso);
      case Organization =>
        r := OrganizationAnalytics(db, session.value.userId, start, iso);
      case Admin =>
        var stats := PlatformAnalytics(db, start, iso);
        r := Ok(ForAdmin(stats));
      case Unrecognized =>
        r := Err(403, "Forbidden");
    }
  }
}
