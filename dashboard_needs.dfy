/** The dashboard's needs list: it loads the orphanage's needs once, puts a
    newly added need first, drops a deleted one, and once any request has
    failed shows only the error. */
module DashboardNeeds {
  import opened Http
  import opened Text
  import opened Seqs
  import opened Store

  /** What the component renders. */
  datatype View = Loading | ShowError(message: string) | ShowList(needs: seq<Need>)

  const AddFailed := "Failed to add need. Please try again."
  const DeleteFailed := "Failed to delete need. Please try again."

  class NeedsList {
    var needs: seq<Need>
    var newNeed: string
    var isLoading: bool
    var error: string

    /** The first render: loading, nothing listed, no error. */
    constructor()
      ensures needs == [] && newNeed == "" && isLoading && error == ""
      ensures View() == Loading
    {
      needs, newNeed, isLoading, error := [], "", true, "";
    }

    /** `if (isLoading) ...; if (error) ...;` then the list. */
    function View(): (v: View)
      reads this
      ensures v.ShowError? ==> v.message != ""
      ensures error != "" && !isLoading ==> v == ShowError(error)
    {
      if isLoading then Loading
      else if error != "" then ShowError(error)
      else ShowList(needs)
    }

    /** The mount effect: a good response becomes the list, anything else
        becomes the error ("Failed to fetch needs" for a non-2xx reply);
        either way loading ends. */
    method FinishLoading(outcome: Fetched<seq<Need>>)
      modifies this
      ensures !isLoading && newNeed == old(newNeed)
      ensures outcome.Loaded? ==> needs == outcome.value && error == old(error)
      ensures outcome.NotOk? ==> needs == old(needs) && error == "Failed to fetch needs"
      ensures outcome.Threw? ==> needs == old(needs) && error == outcome.message
      ensures outcome.ThrewOther? ==> needs == old(needs) && error == "An unknown error occurred"
    {
      match outcome {
        case Loaded(rows) =>
          needs := rows;
        case NotOk =>
          error := "Failed to fetch needs";
        case Threw(message) =>
          error := message;
        case ThrewOther =>
          error := "An unknown error occurred";
      }
      isLoading := false;
    }

    /** `handleAddNeed`: a blank input sends nothing; otherwise the text is
        sent as typed (not trimmed). On success the server's need goes to
        the front and the input is cleared; a non-2xx reply sets the error
        and keeps the list. The handler has no `catch`: when `fetch` or
        `res.json()` throws, the handler is rejected and nothing changes.
        `reply` is how the request ended. */
    method AddNeed(reply: Fetched<Need>) returns (sent: Option<string>)
      modifies this
      ensures IsBlank(old(newNeed)) ==> sent.None? && needs == old(needs) && newNeed == old(newNeed) && error == old(error)
      ensures !IsBlank(old(newNeed)) ==> sent == Some(old(newNeed))
      ensures !IsBlank(old(newNeed)) && reply.Loaded? ==>
                needs == [reply.value] + old(needs) && newNeed == "" && error == old(error)
      ensures !IsBlank(old(newNeed)) && reply.NotOk? ==>
                needs == old(needs) && newNeed == old(newNeed) && error == AddFailed
      ensures (reply.Threw? || reply.ThrewOther?) ==>
                needs == old(needs) && newNeed == old(newNeed) && error == old(error)
      ensures isLoading == old(isLoading)
    {
      sent := None;
      if IsBlank(newNeed) {
        return;
      }
      sent := Some(newNeed);
      match reply {
        case Loaded(need) =>
          needs := [need] + needs;
          newNeed := "";
        case NotOk =>
          error := AddFailed;
        case Threw(_) =>
        case ThrewOther =>
      }
    }

    /** `handleDeleteNeed`: nothing happens unless the user confirms; a
        successful request drops the needs with that id, a non-2xx reply
        sets the error and keeps the list, and a `fetch` that throws leaves
        everything as it was (the handler has no `catch`). */
    method DeleteNeed(id: string, confirmed: bool, reply: Fetched<()>)
      modifies this
      ensures !confirmed ==> needs == old(needs) && error == old(error)
      ensures confirmed && reply.Loaded? ==> needs == Filter(old(needs), OtherThan(id)) && error == old(error)
      ensures confirmed && reply.NotOk? ==> needs == old(needs) && error == DeleteFailed
      ensures (reply.Threw? || reply.ThrewOther?) ==> needs == old(needs) && error == old(error)
      ensures newNeed == old(newNeed) && isLoading == old(isLoading)
    {
      if !confirmed {
        return;
      }
      match reply {
        case Loaded(_) =>
          needs := Filter(needs, OtherThan(id));
        case NotOk =>
          error := DeleteFailed;
        case Threw(_) =>
        case ThrewOther =>
      }
    }
  }

  /** A sent description is never empty, so the route never answers it with
      "Description is required"; it may still carry the surrounding blanks. */
  lemma SentTextIsPresent(text: string)
    requires !IsBlank(text)
    ensures Present(Some(text))
  {
  }

  /** Nothing clears the error: once a request has failed and loading is
      over, every later add or delete leaves the view on the error. */
  method ErrorSticks(l: NeedsList, id: string, reply: Fetched<Need>, confirmed: bool, deleted: Fetched<()>)
    requires l.error != "" && !l.isLoading
    modifies l
    ensures l.View().ShowError?
  {
    var _ := l.AddNeed(reply);
    assert l.error != "";
    l.DeleteNeed(id, confirmed, deleted);
  }
}
