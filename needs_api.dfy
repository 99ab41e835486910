/** /api/needs: an orphanage lists, adds and removes its own needs. Every
    method first requires an ORPHANAGE session and the caller's profile. */
module NeedsApi {
  import opened Http
  import opened Seqs
  import opened Store

  function OwnedBy(orphanageId: string): Need -> bool {
    (n: Need) => n.orphanageId == orphanageId
  }

  /** `orderBy: { createdAt: 'desc' }`. */
  predicate NewestFirst(a: Need, b: Need) {
    a.createdAt >= b.createdAt
  }

  lemma NewestFirstTotalPreorder()
    ensures TotalPreorder(NewestFirst)
  {
  }

  /** rs is what GET returns to the user: exactly the needs of the user's
      orphanage, newest first. */
  ghost predicate NeedsOfCaller(db: map<string, Need>, orphanages: map<string, OrphanageProfile>, userId: string, rs: seq<Need>) {
    exists p :: IsOrphanageOf(orphanages, userId, p) &&
      IsOrdering(rs, db, OwnedBy(p.id), NewestFirst) &&
      (forall i :: 0 <= i < |rs| ==> rs[i].orphanageId == p.id && rs[i] in db.Values) &&
      (forall k :: k in db && db[k].orphanageId == p.id ==> db[k] in rs)
  }

  /** GET: the caller's needs, newest first. */
  method ListNeeds(db: Database, session: Option<Session>) returns (r: Response<seq<Need>>)
    requires db.Valid()
    ensures !IsOrphanageSession(session) ==> r == Err(401, "Unauthorized")
    ensures IsOrphanageSession(session) && NoOrphanage(db.orphanages, session.value.userId) ==>
              r == Err(404, "Orphanage profile not found")
    ensures r.Ok? <==> IsOrphanageSession(session) && !NoOrphanage(db.orphanages, session.value.userId)
    ensures r.Ok? ==> NeedsOfCaller(db.needs, db.orphanages, session.value.userId, r.value) && SortedBy(r.value, NewestFirst)
  {
    var caller := CallerOrphanage(db, session);
    if caller.Err? {
      return Err(caller.status, caller.message);
    }
    var p := caller.value;
    NewestFirstTotalPreorder();
    var rows := SelectAll(db.needs, OwnedBy(p.id), NewestFirst);
    r := Ok(rows);
  }

  /** POST: a need with the given description for the caller's orphanage.
      The status is the column default, ACTIVE; the id and the creation
      time come from the store. */
  method CreateNeed(db: Database, session: Option<Session>, description: Option<string>, newId: string, now: int)
    returns (r: Response<Need>)
    requires db.Valid()
    modifies db`needs
    ensures db.Valid()
    ensures !IsOrphanageSession(session) ==> r == Err(401, "Unauthorized")
    ensures IsOrphanageSession(session) && NoOrphanage(db.orphanages, session.value.userId) ==>
              r == Err(404, "Orphanage profile not found")
    ensures IsOrphanageSession(session) && !NoOrphanage(db.orphanages, session.value.userId) && !Present(description) ==>
              r == Err(400, "Description is required")
    ensures IsOrphanageSession(session) && !NoOrphanage(db.orphanages, session.value.userId) && Present(description) ==>
              (r.Ok? <==> newId !in old(db.needs))
    ensures r.Ok? ==>
              && IsOrphanageSession(session) && description.Some?
              && r.value.orphanageId in db.orphanages
              && IsOrphanageOf(db.orphanages, session.value.userId, db.orphanages[r.value.orphanageId])
              && r.value == Need(newId, r.value.orphanageId, description.value, "ACTIVE", now)
              && newId !in old(db.needs) && db.needs == old(db.needs)[newId := r.value]
    ensures r.Err? ==> db.needs == old(db.needs)
  {
    var caller := CallerOrphanage(db, session);
    if caller.Err? {
      return Err(caller.status, caller.message);
    }
    if !Present(description) {
      return Err(400, "Description is required");
    }
    if newId in db.needs {
      // the store refuses a second row with the same id
      return Err(500, "Internal Server Error");
    }
    var n := Need(newId, caller.value.id, description.value, "ACTIVE", now);
    db.needs := db.needs[newId := n];
    r := Ok(n);
  }

  /** DELETE ?id=: removes one of the caller's needs and answers 204. A need
      of another orphanage is reported as not found and kept. */
  method DeleteNeed(db: Database, session: Option<Session>, needId: Option<string>) returns (r: Response<nat>)
    requires db.Valid()
    modifies db`needs
    ensures db.Valid()
    ensures !IsOrphanageSession(session) ==> r == Err(401, "Unauthorized")
    ensures IsOrphanageSession(session) && NoOrphanage(db.orphanages, session.value.userId) ==>
              r == Err(404, "Orphanage profile not found")
    ensures IsOrphanageSession(session) && !NoOrphanage(db.orphanages, session.value.userId) && !Present(needId) ==>
              r == Err(400, "Need ID is required")
    ensures (IsOrphanageSession(session) && !NoOrphanage(db.orphanages, session.value.userId) &&
             Present(needId) && needId.value !in old(db.needs)) ==>
              r == Err(404, "Need not found or you do not have permission to delete it")
    ensures (IsOrphanageSession(session) && Present(needId) && needId.value in old(db.needs) &&
             old(db.needs)[needId.value].orphanageId in db.orphanages &&
             db.orphanages[old(db.needs)[needId.value].orphanageId].userId == session.value.userId) ==>
              r == Ok(204)
    ensures (IsOrphanageSession(session) && Present(needId) && needId.value in old(db.needs) &&
             old(db.needs)[needId.value].orphanageId in db.orphanages &&
             db.orphanages[old(db.needs)[needId.value].orphanageId].userId != session.value.userId) ==>
              r.Err? && r.status == 404
    ensures r.Ok? ==>
              && r.value == 204 && IsOrphanageSession(session) && needId.Some? && needId.value in old(db.needs)
              && old(db.needs)[needId.value].orphanageId in db.orphanages
              && IsOrphanageOf(db.orphanages, session.value.userId, db.orphanages[old(db.needs)[needId.value].orphanageId])
              && db.needs == old(db.needs) - {needId.value}
    ensures r.Err? ==> db.needs == old(db.needs)
  {
    var caller := CallerOrphanage(db, session);
    if caller.Err? {
      return Err(caller.status, caller.message);
    }
    if !Present(needId) {
      return Err(400, "Need ID is required");
    }
    var id := needId.value;
    if id !in db.needs || db.needs[id].orphanageId != caller.value.id {
      return Err(404, "Need not found or you do not have permission to delete it");
    }
    db.needs := db.needs - {id};
    r := Ok(204);
  }
}
