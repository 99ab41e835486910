/** Notifications: the records the notifications route serves and creates,
    and the bell menu that shows them and keeps their read state. */
module Notifications {
  import opened Text
  import opened Seqs
  import opened Http

  /** A notification; `kind` is its `type` text and `createdAt` its time in
      milliseconds. */
  datatype Notification = Notification(
    id: string, kind: string, title: string, message: string,
    isRead: bool, createdAt: int, actionUrl: Option<string>)

  predicate Unread(n: Notification) { !n.isRead }

  /** `notifications.filter(n => !n.isRead).length`. */
  function UnreadCount(ns: seq<Notification>): (c: nat)
    ensures c <= |ns|
    ensures c == 0 <==> forall i :: 0 <= i < |ns| ==> ns[i].isRead
  {
    var unread := Filter(ns, Unread);
    assert unread != [] ==> unread[0] in ns && Unread(unread[0]);
    |unread|
  }

  /** The badge on the bell: hidden without unread notifications, the count
      up to nine, "9+" above. */
  function Badge(unread: nat): (r: Option<string>)
    ensures r.None? <==> unread == 0
    ensures unread > 9 ==> r == Some("9+")
    ensures 0 < unread <= 9 ==> r.Some? && |r.value| == 1 && ParseInt(r.value) == Int(unread)
  {
    if unread == 0 then None
    else if unread > 9 then Some("9+")
    else
      ParseIntOfNatToString(unread);
      Some(NatToString(unread))
  }

  /** The icon of a notification type; unknown types get a loudspeaker. */
  function Icon(kind: string): string {
    match kind
    case "EVENT_PROPOSAL" => "📅"
    case "EVENT_APPROVED" => "✅"
    case "EVENT_DECLINED" => "❌"
    case "MESSAGE" => "💬"
    case "VISIT_LOGGED" => "📝"
    case "VERIFICATION" => "🔍"
    case "SYSTEM" => "⚙️"
    case _ => "📢"
  }

  /** The badge colour classes of a notification type. */
  function Color(kind: string): string {
    match kind
    case "EVENT_PROPOSAL" => "bg-blue-100 text-blue-800"
    case "EVENT_APPROVED" => "bg-green-100 text-green-800"
    case "EVENT_DECLINED" => "bg-red-100 text-red-800"
    case "MESSAGE" => "bg-purple-100 text-purple-800"
    case "VISIT_LOGGED" => "bg-orange-100 text-orange-800"
    case "VERIFICATION" => "bg-yellow-100 text-yellow-800"
    case "SYSTEM" => "bg-gray-100 text-gray-800"
    case _ => "bg-blue-100 text-blue-800"
  }

  const Kinds: seq<string> := ["EVENT_PROPOSAL", "EVENT_APPROVED", "EVENT_DECLINED", "MESSAGE",
                               "VISIT_LOGGED", "VERIFICATION", "SYSTEM"]

  /** The seven known types have seven different icons, none of them the
      fallback; only a proposal shares its colour with the fallback. */
  lemma IconsAndColors(kind: string)
    ensures forall i, j :: 0 <= i < j < |Kinds| ==> Icon(Kinds[i]) != Icon(Kinds[j])
    ensures kind in Kinds <==> Icon(kind) != "📢"
    ensures Color(kind) == "bg-blue-100 text-blue-800" <==> kind !in Kinds[1..]
  {
  }

  /** The bell menu's state. */
  class NotificationCenter {
    var notifications: seq<Notification>
    var isOpen: bool
    var isLoading: bool

    constructor ()
      ensures notifications == [] && !isOpen && !isLoading
    {
      notifications, isOpen, isLoading := [], false, false;
    }

    /** The start of `fetchNotifications`, run once on mount: the menu shows it is loading. */
    method StartLoading()
      modifies this`isLoading
      ensures isLoading
    {
      isLoading := true;
    }

    /** The bell button: it opens a closed menu and closes an open one. */
    method Toggle()
      modifies this`isOpen
      ensures isOpen == !old(isOpen)
    {
      isOpen := !isOpen;
    }

    /** The close button, the backdrop and a followed "View Details" link all close the menu. */
    method Close()
      modifies this`isOpen
      ensures !isOpen
    {
      isOpen := false;
    }

    /** `fetchNotifications`: the list is replaced only by a successful answer. */
    method Loaded(response: Response<seq<Notification>>)
      modifies this
      ensures notifications == if response.Ok? then response.value else old(notifications)
      ensures !isLoading && isOpen == old(isOpen)
    {
      if response.Ok? {
        notifications := response.value;
      }
      isLoading := false;
    }

    /** `markAsRead(id)` once the server answered with `ok`. */
    method MarkAsRead(id: string, ok: bool)
      modifies this
      ensures |notifications| == |old(notifications)|
      ensures forall i :: 0 <= i < |notifications| ==>
                notifications[i] == if ok && old(notifications)[i].id == id
                                    then old(notifications)[i].(isRead := true) else old(notifications)[i]
      ensures isOpen == old(isOpen) && isLoading == old(isLoading)
    {
      if ok {
        notifications := MarkedRead(notifications, id);
      }
    }

    /** `markAllAsRead` once the server answered with `ok`. */
    method MarkAllAsRead(ok: bool)
      modifies this
      ensures |notifications| == |old(notifications)|
      ensures forall i :: 0 <= i < |notifications| ==>
                notifications[i] == if ok then old(notifications)[i].(isRead := true) else old(notifications)[i]
      ensures ok ==> UnreadCount(notifications) == 0
      ensures isOpen == old(isOpen) && isLoading == old(isLoading)
    {
      if ok {
        var ns := notifications;
        notifications := seq(|ns|, i requires 0 <= i < |ns| => ns[i].(isRead := true));
      }
    }

    /** `deleteNotification(id)` once the server answered with `ok`. */
    method Delete(id: string, ok: bool)
      modifies this
      ensures notifications == if ok then Filter(old(notifications), (n: Notification) => n.id != id) else old(notifications)
      ensures isOpen == old(isOpen) && isLoading == old(isLoading)
    {
      if ok {
        notifications := Filter(notifications, (n: Notification) => n.id != id);
      }
    }
  }

  /** The list with every notification carrying id marked read. */
  function MarkedRead(ns: seq<Notification>, id: string): (r: seq<Notification>)
    ensures |r| == |ns|
    ensures forall i :: 0 <= i < |ns| ==> r[i] == if ns[i].id == id then ns[i].(isRead := true) else ns[i]
  {
    seq(|ns|, i requires 0 <= i < |ns| => if ns[i].id == id then ns[i].(isRead := true) else ns[i])
  }

  /** Marking one notification read lowers the unread count by the number of
      unread notifications with that id, and by nothing else. */
  lemma {:induction false} MarkedReadCount(ns: seq<Notification>, id: string)
    ensures UnreadCount(MarkedRead(ns, id)) == UnreadCount(ns) - |Filter(ns, (n: Notification) => n.id == id && !n.isRead)|
  {
    if ns != [] {
      MarkedReadCount(ns[1..], id);
      assert MarkedRead(ns, id)[1..] == MarkedRead(ns[1..], id);
    }
  }

  /** After a delete nothing with that id is left, and the rest keep their
      order. */
  lemma DeleteRemovesOnly(ns: seq<Notification>, id: string)
    ensures var r := Filter(ns, (n: Notification) => n.id != id);
            (forall i :: 0 <= i < |r| ==> r[i].id != id) &&
            (forall i :: 0 <= i < |ns| && ns[i].id != id ==> ns[i] in r) &&
            IsSubsequence(r, ns)
  {
    FilterIsSubsequence(ns, (n: Notification) => n.id != id);
  }

  // ---- GET and POST /api/notifications ----

  /** The three sample notifications the route serves, dated from now. */
  function Samples(now: int): seq<Notification> {
    [Notification("1", "EVENT_PROPOSAL", "New Event Proposal",
                  "You have received a new event proposal from Hope Foundation.", false, now,
                  Some("/dashboard/orphanage?tab=events")),
     Notification("2", "MESSAGE", "New Message",
                  "You have a new message from Sunshine Orphanage.", false, now - 3600000,
                  Some("/dashboard/organization?tab=messages")),
     Notification("3", "VISIT_LOGGED", "Visit Logged",
                  "A new visit has been logged for your organization.", true, now - 86400000,
                  Some("/dashboard/organization?tab=visits"))]
  }

  /** The types each role receives: orphanages the proposal, message,
      verification and system types; organizations everything but proposals;
      administrators everything; any other role nothing. */
  predicate VisibleTo(role: Role, kind: string) {
    match role
    case Orphanage => kind in ["EVENT_PROPOSAL", "MESSAGE", "VERIFICATION", "SYSTEM"]
    case Organization => kind in ["EVENT_APPROVED", "EVENT_DECLINED", "MESSAGE", "VISIT_LOGGED", "VERIFICATION", "SYSTEM"]
    case Admin => true
    case Unrecognized => false
  }

  function VisibleFilter(role: Role): Notification -> bool {
    (n: Notification) => VisibleTo(role, n.kind)
  }

  function GetNotifications(session: Option<Session>, now: int): (r: Response<seq<Notification>>)
    ensures session.None? <==> r == Err(401, "Unauthorized")
    ensures session.Some? <==> r.Ok?
    ensures r.Ok? ==> IsSubsequence(r.value, Samples(now)) &&
                      forall i :: 0 <= i < |Samples(now)| ==>
                        (Samples(now)[i] in r.value <==> VisibleTo(session.value.role, Samples(now)[i].kind))
  {
    if session.None? then Err(401, "Unauthorized")
    else
      var role := session.value.role;
      FilterIsSubsequence(Samples(now), VisibleFilter(role));
      Ok(Filter(Samples(now), VisibleFilter(role)))
  }

  /** What each role sees of three notifications of the sample kinds. */
  lemma VisibleOfSampleKinds(a: Notification, b: Notification, c: Notification, role: Role)
    requires a.kind == "EVENT_PROPOSAL" && b.kind == "MESSAGE" && c.kind == "VISIT_LOGGED"
    ensures Filter([a, b, c], VisibleFilter(role)) ==
              match role
              case Orphanage => [a, b]
              case Organization => [b, c]
              case Admin => [a, b, c]
              case Unrecognized => []
  {
    var p := VisibleFilter(role);
    FilterThree(a, b, c, p);
    match role {
      case Orphanage =>
        assert p(a) && p(b) && !p(c);
        assert [a] + ([b] + []) == [a, b];
      case Organization =>
        assert !p(a) && p(b) && p(c);
        assert [] + ([b] + [c]) == [b, c];
      case Admin =>
        assert [a] + ([b] + [c]) == [a, b, c];
      case Unrecognized =>
    }
  }

  /** What each role sees of the samples: orphanages the first two,
      organizations the last two, administrators all three. */
  lemma SamplesPerRole(now: int, role: Role)
    ensures var r := GetNotifications(Some(Session("u", role)), now);
            r == Ok(match role
                    case Orphanage => Samples(now)[..2]
                    case Organization => Samples(now)[1..]
                    case Admin => Samples(now)
                    case Unrecognized => [])
  {
    var s := Samples(now);
    assert s == [s[0], s[1], s[2]];
    assert s[..2] == [s[0], s[1]] && s[1..] == [s[1], s[2]];
    VisibleOfSampleKinds(s[0], s[1], s[2], role);
  }

  /** The JSON body of a POST. */
  datatype NewNotification = NewNotification(
    userId: Option<string>, kind: Option<string>, title: Option<string>,
    message: Option<string>, actionUrl: Option<string>)

  datatype NotificationRecord = NotificationRecord(
    id: string, userId: string, kind: string, title: string, message: string,
    actionUrl: Option<string>, isRead: bool, createdAt: nat)

  /** `POST /api/notifications`: administrators only; the record is not
      stored, only echoed with the current time as its id. */
  function CreateNotification(session: Option<Session>, body: NewNotification, now: nat): (r: Response<NotificationRecord>)
    ensures (session.None? || session.value.role != Admin) <==> r == Err(401, "Unauthorized")
    ensures r == Err(400, "Missing required fields") <==>
              session.Some? && session.value.role == Admin &&
              !(Present(body.userId) && Present(body.kind) && Present(body.title) && Present(body.message))
    ensures r.Ok? <==> session.Some? && session.value.role == Admin &&
                       Present(body.userId) && Present(body.kind) && Present(body.title) && Present(body.message)
    ensures r.Ok? ==> !r.value.isRead && ParseInt(r.value.id) == Int(now) && r.value.createdAt == now &&
                      Some(r.value.userId) == body.userId && Some(r.value.kind) == body.kind &&
                      Some(r.value.title) == body.title && Some(r.value.message) == body.message &&
                      r.value.actionUrl == body.actionUrl
  {
    if session.None? || session.value.role != Admin then Err(401, "Unauthorized")
    else if !(Present(body.userId) && Present(body.kind) && Present(body.title) && Present(body.message)) then
      Err(400, "Missing required fields")
    else
      ParseIntOfNatToString(now);
      Ok(NotificationRecord(NatToString(now), body.userId.value, body.kind.value, body.title.value,
                            body.message.value, body.actionUrl, false, now))
  }
}
