/** /api/events and /api/events/manage: an organization proposes an event to
    an orphanage; the orphanage lists the proposals made to it and sets
    their status. */
module EventsApi {
  import opened Http
  import opened Seqs
  import opened Store

  /** The JSON body of a proposal. */
  datatype Proposal = Proposal(title: Option<string>, description: Option<string>,
                               proposedDate: Option<string>, orphanageId: Option<string>)

  /** POST /api/events: the caller's organization proposes an event, which
      always starts PENDING. `parseDate` is `new Date(proposedDate)`, None
      for text that is not a date (the store then refuses the row). The
      route itself does not look the orphanage up; the store's reference
      from the event to its orphanage refuses an unknown one, which the
      catch turns into a 500. */
  method ProposeEvent(db: Database, session: Option<Session>, body: Proposal,
                      parseDate: string -> Option<int>, newId: string) returns (r: Response<Event>)
    requires db.Valid()
    modifies db`events
    ensures db.Valid()
    ensures !IsOrganizationSession(session) ==> r == Err(401, "Unauthorized")
    ensures IsOrganizationSession(session) && NoOrganization(db.organizations, session.value.userId) ==>
              r == Err(404, "Organization profile not found")
    ensures (IsOrganizationSession(session) && !NoOrganization(db.organizations, session.value.userId) &&
             (!Present(body.title) || !Present(body.proposedDate) || !Present(body.orphanageId))) ==>
              r == Err(400, "Missing required fields")
    ensures (IsOrganizationSession(session) && !NoOrganization(db.organizations, session.value.userId) &&
             Present(body.title) && Present(body.proposedDate) && Present(body.orphanageId)) ==>
              (r.Ok? <==> parseDate(body.proposedDate.value).Some? && body.orphanageId.value in db.orphanages &&
                          newId !in old(db.events))
    ensures r.Err? && r.status == 500 ==>
              parseDate(body.proposedDate.value).None? || body.orphanageId.value !in db.orphanages || newId in old(db.events)
    ensures r.Ok? ==>
              && IsOrganizationSession(session)
              && body.title.Some? && body.proposedDate.Some? && body.orphanageId.Some?
              && r.value.organizationId in db.organizations
              && IsOrganizationOf(db.organizations, session.value.userId, db.organizations[r.value.organizationId])
              && parseDate(body.proposedDate.value).Some?
              && r.value == Event(newId, body.orphanageId.value, r.value.organizationId, body.title.value,
                                  body.description, parseDate(body.proposedDate.value).value, Pending)
              && newId !in old(db.events) && db.events == old(db.events)[newId := r.value]
    ensures r.Err? ==> db.events == old(db.events)
  {
    var caller := CallerOrganization(db, session);
    if caller.Err? {
      return Err(caller.status, caller.message);
    }
    if !Present(body.title) || !Present(body.proposedDate) || !Present(body.orphanageId) {
      return Err(400, "Missing required fields");
    }
    var date := parseDate(body.proposedDate.value);
    if date.None? || body.orphanageId.value !in db.orphanages || newId in db.events {
      return Err(500, "Internal Server Error");
    }
    var e := Event(newId, body.orphanageId.value, caller.value.id, body.title.value, body.description, date.value, Pending);
    db.events := db.events[newId := e];
    r := Ok(e);
  }

  function ProposedTo(orphanageId: string): Event -> bool {
    (e: Event) => e.orphanageId == orphanageId
  }

  /** `orderBy: { proposedDate: 'asc' }`. */
  predicate EarliestFirst(a: Event, b: Event) {
    a.proposedDate <= b.proposedDate
  }

  lemma EarliestFirstTotalPreorder()
    ensures TotalPreorder(EarliestFirst)
  {
  }

  /** rs is exactly the events proposed to the user's orphanage, earliest
      first. */
  ghost predicate EventsOfCaller(events: map<string, Event>, orphanages: map<string, OrphanageProfile>, userId: string, rs: seq<Event>) {
    exists p :: IsOrphanageOf(orphanages, userId, p) &&
      IsOrdering(rs, events, ProposedTo(p.id), EarliestFirst) &&
      (forall i :: 0 <= i < |rs| ==> rs[i].orphanageId == p.id && rs[i] in events.Values) &&
      (forall k :: k in events && events[k].orphanageId == p.id ==> events[k] in rs)
  }

  /** GET /api/events/manage: the proposals made to the caller's orphanage. */
  method ListProposals(db: Database, session: Option<Session>) returns (r: Response<seq<Event>>)
    requires db.Valid()
    ensures !IsOrphanageSession(session) ==> r == Err(401, "Unauthorized")
    ensures IsOrphanageSession(session) && NoOrphanage(db.orphanages, session.value.userId) ==>
              r == Err(404, "Orphanage profile not found")
    ensures r.Ok? <==> IsOrphanageSession(session) && !NoOrphanage(db.orphanages, session.value.userId)
    ensures r.Ok? ==> EventsOfCaller(db.events, db.orphanages, session.value.userId, r.value) && SortedBy(r.value, EarliestFirst)
  {
    var caller := CallerOrphanage(db, session);
    if caller.Err? {
      return Err(caller.status, caller.message);
    }
    EarliestFirstTotalPreorder();
    var rows := SelectAll(db.events, ProposedTo(caller.value.id), EarliestFirst);
    r := Ok(rows);
  }

  /** PATCH /api/events/manage: sets the status of one of the caller's
      events to any value of the enum, whatever its status was. */
  method SetEventStatus(db: Database, session: Option<Session>, eventId: Option<string>, status: Option<string>)
    returns (r: Response<Event>)
    requires db.Valid()
    modifies db`events
    ensures db.Valid()
    ensures !IsOrphanageSession(session) ==> r == Err(401, "Unauthorized")
    ensures IsOrphanageSession(session) && NoOrphanage(db.orphanages, session.value.userId) ==>
              r == Err(404, "Orphanage profile not found")
    ensures (IsOrphanageSession(session) && !NoOrphanage(db.orphanages, session.value.userId) &&
             (!Present(eventId) || !Present(status))) ==> r == Err(400, "Event ID and status are required")
    ensures (IsOrphanageSession(session) && !NoOrphanage(db.orphanages, session.value.userId) &&
             Present(eventId) && Present(status) && ParseStatus(status.value).None?) ==> r == Err(400, "Invalid status value")
    ensures (IsOrphanageSession(session) && Present(eventId) && Present(status) && ParseStatus(status.value).Some? &&
             eventId.value in old(db.events) && old(db.events)[eventId.value].orphanageId in db.orphanages &&
             db.orphanages[old(db.events)[eventId.value].orphanageId].userId != session.value.userId) ==>
              r.Err? && r.status == 404
    ensures (IsOrphanageSession(session) && !NoOrphanage(db.orphanages, session.value.userId) &&
             Present(eventId) && Present(status) && ParseStatus(status.value).Some? && eventId.value !in old(db.events)) ==>
              r == Err(404, "Event not found or permission denied")
    ensures (IsOrphanageSession(session) && Present(eventId) && Present(status) && ParseStatus(status.value).Some? &&
             eventId.value in old(db.events) && old(db.events)[eventId.value].orphanageId in db.orphanages &&
             db.orphanages[old(db.events)[eventId.value].orphanageId].userId == session.value.userId) ==>
              r == Ok(old(db.events)[eventId.value].(status := ParseStatus(status.value).value))
    ensures r.Ok? ==>
              && IsOrphanageSession(session) && eventId.Some? && status.Some?
              && eventId.value in old(db.events)
              && old(db.events)[eventId.value].orphanageId in db.orphanages
              && IsOrphanageOf(db.orphanages, session.value.userId, db.orphanages[old(db.events)[eventId.value].orphanageId])
              && ParseStatus(status.value).Some?
              && r.value == old(db.events)[eventId.value].(status := ParseStatus(status.value).value)
              && db.events == old(db.events)[eventId.value := r.value]
    ensures r.Err? ==> db.events == old(db.events)
  {
    var caller := CallerOrphanage(db, session);
    if caller.Err? {
      return Err(caller.status, caller.message);
    }
    if !Present(eventId) || !Present(status) {
      return Err(400, "Event ID and status are required");
    }
    var s := ParseStatus(status.value);
    if s.None? {
      return Err(400, "Invalid status value");
    }
    var id := eventId.value;
    if id !in db.events || db.events[id].orphanageId != caller.value.id {
      return Err(404, "Event not found or permission denied");
    }
    var updated := db.events[id].(status := s.value);
    db.events := db.events[id := updated];
    r := Ok(updated);
  }
}
