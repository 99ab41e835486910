/** The orphanage's proposal board: it loads the proposals once, shows the
    pending and the approved ones in two sections, offers Approve and Decline
    on pending cards only, and after a successful status change updates just
    that card. */
module EventManager {
  import opened Http
  import opened Seqs
  import opened Store

  /** A card: the event and the proposing organization's name. */
  datatype Card = Card(event: Event, organizationName: string)

  /** `events.map(event => event.id === eventId ? { ...event, status } : event)`. */
  function WithStatus(cards: seq<Card>, eventId: string, status: EventStatus): (r: seq<Card>)
    ensures |r| == |cards|
  {
    if cards == [] then []
    else
      var c := cards[0];
      [if c.event.id == eventId then c.(event := c.event.(status := status)) else c] + WithStatus(cards[1..], eventId, status)
  }

  /** Only the cards with that id change, and in them only the status. */
  lemma {:induction false} WithStatusFacts(cards: seq<Card>, eventId: string, status: EventStatus)
    ensures forall i :: 0 <= i < |cards| ==>
              var r := WithStatus(cards, eventId, status)[i];
              r.event.(status := cards[i].event.status) == cards[i].event &&
              r.organizationName == cards[i].organizationName &&
              r.event.status == (if cards[i].event.id == eventId then status else cards[i].event.status)
  {
    if cards != [] {
      WithStatusFacts(cards[1..], eventId, status);
      assert WithStatus(cards, eventId, status)[1..] == WithStatus(cards[1..], eventId, status);
    }
  }

  function StatusIs(s: EventStatus): Card -> bool {
    (c: Card) => c.event.status == s
  }

  /** "Pending Review". */
  function PendingSection(cards: seq<Card>): seq<Card> {
    Filter(cards, StatusIs(Pending))
  }

  /** "Approved & Upcoming". */
  function ApprovedSection(cards: seq<Card>): seq<Card> {
    Filter(cards, StatusIs(Approved))
  }

  /** Each section keeps the board's order and holds exactly the cards of
      its status; declined and completed proposals are in neither. */
  lemma Sections(cards: seq<Card>)
    ensures IsSubsequence(PendingSection(cards), cards) && IsSubsequence(ApprovedSection(cards), cards)
    ensures forall c :: c in PendingSection(cards) <==> c in cards && c.event.status == Pending
    ensures forall c :: c in ApprovedSection(cards) <==> c in cards && c.event.status == Approved
    ensures forall c :: c in cards && (c.event.status == Declined || c.event.status == Completed) ==>
              c !in PendingSection(cards) && c !in ApprovedSection(cards)
  {
    FilterIsSubsequence(cards, StatusIs(Pending));
    FilterIsSubsequence(cards, StatusIs(Approved));
    forall c ensures c in PendingSection(cards) <==> c in cards && c.event.status == Pending {
      FilterMembers(cards, StatusIs(Pending), c);
    }
    forall c ensures c in ApprovedSection(cards) <==> c in cards && c.event.status == Approved {
      FilterMembers(cards, StatusIs(Approved), c);
    }
  }

  /** The buttons on a card: Approve and Decline on a pending one, none on
      any other. */
  function Actions(c: Card): (r: seq<EventStatus>)
    ensures r != [] <==> c.event.status == Pending
  {
    if c.event.status == Pending then [Approved, Declined] else []
  }

  /** What the component renders. */
  datatype View = Loading | ShowError(message: string) | Board(pending: seq<Card>, approved: seq<Card>)

  class ProposalBoard {
    var events: seq<Card>
    var isLoading: bool
    var error: string

    constructor()
      ensures events == [] && isLoading && error == ""
    {
      events, isLoading, error := [], true, "";
    }

    function View(): (v: View)
      reads this
      ensures !isLoading && error == "" ==> v == Board(PendingSection(events), ApprovedSection(events))
      ensures v.ShowError? ==> v.message == error && error != ""
    {
      if isLoading then Loading
      else if error != "" then ShowError(error)
      else Board(PendingSection(events), ApprovedSection(events))
    }

    /** The mount effect: the loaded cards, or the error; loading ends. */
    method FinishLoading(outcome: Fetched<seq<Card>>)
      modifies this
      ensures !isLoading
      ensures outcome.Loaded? ==> events == outcome.value && error == old(error)
      ensures outcome.NotOk? ==> events == old(events) && error == "Failed to fetch events"
      ensures outcome.Threw? ==> events == old(events) && error == outcome.message
      ensures outcome.ThrewOther? ==> events == old(events) && error == "An unknown error occurred"
    {
      match outcome {
        case Loaded(cards) =>
          events := cards;
        case NotOk =>
          error := "Failed to fetch events";
        case Threw(message) =>
          error := message;
        case ThrewOther =>
          error := "An unknown error occurred";
      }
      isLoading := false;
    }

    /** `handleUpdateStatus`: a successful PATCH changes the status of the
        cards with that id; a non-2xx answer only raises an alert, reported
        in `alerted`. The handler has no `catch`, so a rejected `fetch`
        neither alerts nor changes the cards. */
    method UpdateStatus(eventId: string, status: EventStatus, reply: Fetched<()>) returns (alerted: bool)
      modifies this
      ensures events == (if reply.Loaded? then WithStatus(old(events), eventId, status) else old(events))
      ensures alerted <==> reply.NotOk?
      ensures isLoading == old(isLoading) && error == old(error)
    {
      alerted := reply.NotOk?;
      if reply.Loaded? {
        events := WithStatus(events, eventId, status);
      }
    }
  }

  /** Approving a pending card moves it from the pending section to the
      approved one (its id naming only that card). */
  lemma ApproveMovesCard(cards: seq<Card>, i: nat)
    requires i < |cards| && cards[i].event.status == Pending
    requires forall j :: 0 <= j < |cards| && j != i ==> cards[j].event.id != cards[i].event.id
    ensures var after := WithStatus(cards, cards[i].event.id, Approved);
            var moved := cards[i].(event := cards[i].event.(status := Approved));
            moved in ApprovedSection(after) && moved !in PendingSection(after) &&
            |PendingSection(after)| < |PendingSection(cards)|
  {
    var id := cards[i].event.id;
    var after := WithStatus(cards, id, Approved);
    var moved := cards[i].(event := cards[i].event.(status := Approved));
    WithStatusFacts(cards, id, Approved);
    assert after[i] == moved;
    Sections(after);
    PendingShrinks(cards, after, i);
  }

  /** Turning one pending card into a non-pending one, and leaving every
      other card's status alone, shrinks the pending section. */
  lemma {:induction false} PendingShrinks(cards: seq<Card>, after: seq<Card>, i: nat)
    requires |after| == |cards| && i < |cards|
    requires cards[i].event.status == Pending && after[i].event.status != Pending
    requires forall j :: 0 <= j < |cards| && j != i ==> after[j].event.status == cards[j].event.status
    ensures |PendingSection(after)| < |PendingSection(cards)|
  {
    assert cards == [cards[0]] + cards[1..];
    assert after == [after[0]] + after[1..];
    FilterCons(cards[0], cards[1..], StatusIs(Pending));
    FilterCons(after[0], after[1..], StatusIs(Pending));
    if i == 0 {
      SameStatusSameCount(cards[1..], after[1..]);
    } else {
      PendingShrinks(cards[1..], after[1..], i - 1);
    }
  }

  lemma {:induction false} SameStatusSameCount(a: seq<Card>, b: seq<Card>)
    requires |a| == |b|
    requires forall j :: 0 <= j < |a| ==> a[j].event.status == b[j].event.status
    ensures |PendingSection(a)| == |PendingSection(b)|
  {
    if a != [] {
      assert a == [a[0]] + a[1..];
      assert b == [b[0]] + b[1..];
      FilterCons(a[0], a[1..], StatusIs(Pending));
      FilterCons(b[0], b[1..], StatusIs(Pending));
      SameStatusSameCount(a[1..], b[1..]);
    }
  }
}
