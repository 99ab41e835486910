/** /api/admin/verify-orphanage: an admin marks an orphanage profile as
    VERIFIED or REJECTED. */
module VerifyOrphanage {
  import opened Http
  import opened Text
  import opened Store
  import opened Score

  /** The two decisions an admin can record. */
  const Decisions: seq<string> := ["VERIFIED", "REJECTED"]

  /** The reply: a confirmation and the updated profile. */
  datatype Verdict = Verdict(message: string, orphanage: OrphanageProfile)

  /** `Orphanage ${status.toLowerCase()} successfully`. */
  function Confirmation(status: string): (r: string)
    ensures |r| == |"Orphanage "| + |status| + |" successfully"|
    ensures r[..|"Orphanage "|] == "Orphanage " && r[|"Orphanage "|..|"Orphanage "| + |status|] == Lower(status)
  {
    "Orphanage " + Lower(status) + " successfully"
  }

  /** The two confirmations spelled out. */
  lemma ConfirmationsOfDecisions()
    ensures Confirmation("VERIFIED") == "Orphanage verified successfully"
    ensures Confirmation("REJECTED") == "Orphanage rejected successfully"
  {
  }

  /** POST. The update of an id with no profile throws in the store and the
      catch answers 500. */
  method Verify(db: Database, session: Option<Session>, id: Option<string>, status: Option<string>)
    returns (r: Response<Verdict>)
    requires db.Valid()
    modifies db`orphanages
    ensures db.Valid()
    ensures !(session.Some? && session.value.role == Admin) ==> r == Err(401, "Unauthorized")
    ensures session.Some? && session.value.role == Admin && (!Present(id) || !Present(status)) ==>
              r == Err(400, "Missing id or status")
    ensures (session.Some? && session.value.role == Admin && Present(id) && Present(status) &&
             status.value !in Decisions) ==>
              r == Err(400, "Invalid status")
    ensures (session.Some? && session.value.role == Admin && Present(id) && Present(status) &&
             status.value in Decisions && id.value !in old(db.orphanages)) ==>
              r == Err(500, "Internal Server Error")
    ensures r.Ok? <==>
              session.Some? && session.value.role == Admin && Present(id) && Present(status) &&
              status.value in Decisions && id.value in old(db.orphanages)
    ensures r.Ok? ==>
              && r.value.orphanage == old(db.orphanages)[id.value].(verificationStatus := status.value)
              && r.value.message == Confirmation(status.value)
              && db.orphanages == old(db.orphanages)[id.value := r.value.orphanage]
    ensures r.Err? ==> db.orphanages == old(db.orphanages)
  {
    if session.None? || session.value.role != Admin {
      return Err(401, "Unauthorized");
    }
    if !Present(id) || !Present(status) {
      return Err(400, "Missing id or status");
    }
    if status.value !in Decisions {
      return Err(400, "Invalid status");
    }
    if id.value !in db.orphanages {
      return Err(500, "Internal Server Error");
    }
    var updated := db.orphanages[id.value].(verificationStatus := status.value);
    db.orphanages := db.orphanages[id.value := updated];
    r := Ok(Verdict(Confirmation(status.value), updated));
  }

  /** After a decision the profile's status is VERIFIED or REJECTED, so it is
      worth all 20 verification points or none, never the 10 of a pending
      profile. */
  lemma DecisionSettlesPoints(p: OrphanageProfile, status: string)
    requires status in Decisions
    ensures VerificationPoints(p.(verificationStatus := status).verificationStatus) ==
            (if status == "VERIFIED" then 20.0 else 0.0)
    ensures IsVerified(p.(verificationStatus := status)) <==> status == "VERIFIED"
  {
  }
}
