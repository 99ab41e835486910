/** The needs panel of an orphanage profile: it hands a new list to its
    parent (`onNeedsChange`) after each successful add, status change or
    delete, splits the list into active and fulfilled needs, and offers the
    Add button only to a verified orphanage. */
module NeedsManager {
  import opened Http
  import opened Text
  import opened Seqs
  import opened Store

  /** `needs.map(need => need.id === needId ? updatedNeed : need)`. */
  function ReplaceById(needs: seq<Need>, id: string, updated: Need): (r: seq<Need>)
    ensures |r| == |needs|
  {
    if needs == [] then []
    else [if needs[0].id == id then updated else needs[0]] + ReplaceById(needs[1..], id, updated)
  }

  /** Replacing touches only the needs with that id: the others stay, in
      order, and every position that held that id now holds the update. */
  lemma {:induction false} ReplaceByIdFacts(needs: seq<Need>, id: string, updated: Need)
    ensures updated.id == id ==> Filter(ReplaceById(needs, id, updated), OtherThan(id)) == Filter(needs, OtherThan(id))
    ensures forall i :: 0 <= i < |needs| ==>
              ReplaceById(needs, id, updated)[i] == (if needs[i].id == id then updated else needs[i])
  {
    if needs != [] {
      ReplaceByIdFacts(needs[1..], id, updated);
      var r := ReplaceById(needs, id, updated);
      assert r[1..] == ReplaceById(needs[1..], id, updated);
      assert needs == [needs[0]] + needs[1..];
      assert r == [r[0]] + r[1..];
      FilterCons(r[0], r[1..], OtherThan(id));
      FilterCons(needs[0], needs[1..], OtherThan(id));
    }
  }

  /** A delete keeps exactly the needs with another id, in their order. */
  lemma DeleteKeepsOthers(needs: seq<Need>, id: string)
    ensures forall n :: n in Filter(needs, OtherThan(id)) <==> n in needs && n.id != id
    ensures IsSubsequence(Filter(needs, OtherThan(id)), needs)
  {
    FilterIsSubsequence(needs, OtherThan(id));
    forall n ensures n in Filter(needs, OtherThan(id)) <==> n in needs && n.id != id {
      FilterMembers(needs, OtherThan(id), n);
    }
  }

  function WithStatus(status: string): Need -> bool {
    (n: Need) => n.status == status
  }

  /** `activeNeeds`. */
  function ActiveNeeds(needs: seq<Need>): seq<Need> {
    Filter(needs, WithStatus("ACTIVE"))
  }

  /** `fulfilledNeeds`. */
  function FulfilledNeeds(needs: seq<Need>): seq<Need> {
    Filter(needs, WithStatus("FULFILLED"))
  }

  /** `fulfilledNeeds.slice(0, 3)`: the fulfilled needs on show. */
  function ShownFulfilled(needs: seq<Need>): (r: seq<Need>)
    ensures |r| == if |FulfilledNeeds(needs)| < 3 then |FulfilledNeeds(needs)| else 3
    ensures r == FulfilledNeeds(needs)[..|r|]
  {
    Take(FulfilledNeeds(needs), 3)
  }

  /** The two sections keep the list's order, share no need, and a need of
      any other status is in neither. */
  lemma Partitions(needs: seq<Need>)
    ensures IsSubsequence(ActiveNeeds(needs), needs) && IsSubsequence(FulfilledNeeds(needs), needs)
    ensures forall n :: n in ActiveNeeds(needs) <==> n in needs && n.status == "ACTIVE"
    ensures forall n :: n in FulfilledNeeds(needs) <==> n in needs && n.status == "FULFILLED"
    ensures forall n :: !(n in ActiveNeeds(needs) && n in FulfilledNeeds(needs))
    ensures |ActiveNeeds(needs)| + |FulfilledNeeds(needs)| <= |needs|
  {
    FilterIsSubsequence(needs, WithStatus("ACTIVE"));
    FilterIsSubsequence(needs, WithStatus("FULFILLED"));
    forall n ensures n in ActiveNeeds(needs) <==> n in needs && n.status == "ACTIVE" {
      FilterMembers(needs, WithStatus("ACTIVE"), n);
    }
    forall n ensures n in FulfilledNeeds(needs) <==> n in needs && n.status == "FULFILLED" {
      FilterMembers(needs, WithStatus("FULFILLED"), n);
    }
    PartitionCount(needs);
  }

  lemma {:induction false} PartitionCount(needs: seq<Need>)
    ensures |ActiveNeeds(needs)| + |FulfilledNeeds(needs)| <= |needs|
  {
    if needs != [] {
      PartitionCount(needs[1..]);
      assert needs == [needs[0]] + needs[1..];
      FilterCons(needs[0], needs[1..], WithStatus("ACTIVE"));
      FilterCons(needs[0], needs[1..], WithStatus("FULFILLED"));
    }
  }

  /** The Add button: shown only in an editable panel of a verified
      orphanage. */
  function CanAddNeeds(editable: bool, verificationStatus: Option<string>): (r: bool)
    ensures r ==> editable && verificationStatus == Some("VERIFIED")
  {
    editable && verificationStatus == Some("VERIFIED")
  }

  /** The "Verification Required" notice: an editable panel of an orphanage
      that is not verified (or whose status is unknown). */
  function ShowsVerificationNotice(editable: bool, verificationStatus: Option<string>): (r: bool)
    ensures r ==> editable
  {
    editable && verificationStatus != Some("VERIFIED")
  }

  /** An editable panel shows exactly one of the button and the notice; a
      read-only panel shows neither. */
  lemma ButtonXorNotice(editable: bool, verificationStatus: Option<string>)
    ensures editable ==> CanAddNeeds(editable, verificationStatus) != ShowsVerificationNotice(editable, verificationStatus)
    ensures !editable ==> !CanAddNeeds(editable, verificationStatus) && !ShowsVerificationNotice(editable, verificationStatus)
  {
  }

  /** What the add handler sends for the text in the form: nothing for a
      blank text (`!newNeedDescription.trim()`), otherwise the trimmed
      text, which is never empty. */
  function TextToSend(text: string): (r: Option<string>)
    ensures r.None? <==> IsBlank(text)
    ensures r.Some? ==> r.value == Trim(text) && Present(r)
  {
    BlankIffTrimEmpty(text);
    var t := Trim(text);
    if t == "" then None else Some(t)
  }

  class NeedsPanel {
    var needs: seq<Need>
    var isAddingNeed: bool
    var newNeedDescription: string
    var isLoading: bool

    constructor(needs: seq<Need>)
      ensures this.needs == needs && !isAddingNeed && newNeedDescription == "" && !isLoading
    {
      this.needs := needs;
      isAddingNeed := false;
      newNeedDescription := "";
      isLoading := false;
    }

    /** The form's Add button is disabled while a request runs or while the
        text is blank. */
    predicate SubmitDisabled()
      reads this
    {
      isLoading || IsBlank(newNeedDescription)
    }

    /** `handleAddNeed`: a blank text sends nothing; otherwise the trimmed
        text is sent, and on success the server's need is appended and the
        form is closed and cleared. `reply` is the created need, None for a
        failed request. */
    method AddNeed(reply: Option<Need>) returns (sent: Option<string>)
      modifies this
      ensures sent == TextToSend(old(newNeedDescription))
      ensures sent.None? ==> unchanged(this)
      ensures sent.Some? && reply.Some? ==>
                needs == old(needs) + [reply.value] && newNeedDescription == "" && !isAddingNeed && !isLoading
      ensures sent.Some? && reply.None? ==>
                needs == old(needs) && newNeedDescription == old(newNeedDescription) &&
                isAddingNeed == old(isAddingNeed) && !isLoading
    {
      var text := newNeedDescription;
      sent := TextToSend(text);
      if sent.None? {
        return;
      }
      isLoading := true;
      if reply.Some? {
        needs := needs + [reply.value];
        newNeedDescription := "";
        isAddingNeed := false;
      }
      isLoading := false;
    }

    /** `handleUpdateNeed`: on success the need with that id is replaced by
        the server's copy; a failure changes nothing. */
    method UpdateNeed(needId: string, reply: Option<Need>)
      modifies this
      ensures needs == (if reply.Some? then ReplaceById(old(needs), needId, reply.value) else old(needs))
      ensures |needs| == |old(needs)| && !isLoading
      ensures newNeedDescription == old(newNeedDescription) && isAddingNeed == old(isAddingNeed)
    {
      isLoading := true;
      if reply.Some? {
        needs := ReplaceById(needs, needId, reply.value);
      }
      isLoading := false;
    }

    /** `handleDeleteNeed`: nothing happens unless the user confirms; on a
        successful request every need with that id is dropped. */
    method DeleteNeed(needId: string, confirmed: bool, ok: bool)
      modifies this
      ensures !confirmed ==> needs == old(needs) && isLoading == old(isLoading)
      ensures confirmed ==> needs == (if ok then Filter(old(needs), OtherThan(needId)) else old(needs)) && !isLoading
      ensures newNeedDescription == old(newNeedDescription) && isAddingNeed == old(isAddingNeed)
    {
      if !confirmed {
        return;
      }
      isLoading := true;
      if ok {
        needs := Filter(needs, OtherThan(needId));
      }
      isLoading := false;
    }
  }
}
