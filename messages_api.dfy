/** `/api/messages`: reading a conversation (which marks it read) and
    sending a message. */
module MessagesApi {
  import opened Seqs
  import opened Http
  import opened Store

  /** m passes between the two users, in either direction. */
  predicate InThread(me: string, other: string, m: Message) {
    (m.senderId == me && m.recipientId == other) || (m.senderId == other && m.recipientId == me)
  }

  function ThreadFilter(me: string, other: string): Message -> bool {
    (m: Message) => InThread(me, other, m)
  }

  /** Newest first: the `orderBy: { createdAt: 'desc' }` of the thread. */
  predicate NewerFirst(a: Message, b: Message) {
    a.createdAt >= b.createdAt
  }

  lemma NewerFirstTotalPreorder()
    ensures TotalPreorder(NewerFirst)
  {
  }

  /** The `updateMany` of the handler: every unread message from sender to
      recipient becomes read. */
  function MarkRead(messages: map<string, Message>, sender: string, recipient: string): (r: map<string, Message>)
    ensures r.Keys == messages.Keys
  {
    map k | k in messages ::
      if messages[k].senderId == sender && messages[k].recipientId == recipient && !messages[k].isRead
      then messages[k].(isRead := true) else messages[k]
  }

  /** MarkRead touches only the read flag, only of messages from sender to
      recipient, and leaves none of them unread. */
  lemma MarkReadEffect(messages: map<string, Message>, sender: string, recipient: string)
    ensures var r := MarkRead(messages, sender, recipient);
            forall k :: k in messages ==>
              r[k].(isRead := messages[k].isRead) == messages[k] &&
              (r[k].isRead <==> messages[k].isRead || (messages[k].senderId == sender && messages[k].recipientId == recipient))
  {
  }

  /** Reading a conversation twice marks nothing more the second time. */
  lemma MarkReadIdempotent(messages: map<string, Message>, sender: string, recipient: string)
    ensures MarkRead(MarkRead(messages, sender, recipient), sender, recipient) == MarkRead(messages, sender, recipient)
  {
    var r := MarkRead(messages, sender, recipient);
    var rr := MarkRead(r, sender, recipient);
    assert forall k :: k in r ==> rr[k] == r[k];
  }

  /** ms is what the handler returns for the window (skip, take) of the
      thread between me and other: reversed, it is that window of the thread
      sorted newest first, so ms holds the take messages after the skip
      newest ones, oldest first, and the whole thread when the first window
      holds it. */
  ghost predicate ThreadPage(messages: map<string, Message>, me: string, other: string, skip: nat, take: nat, ms: seq<Message>) {
    ThreadSelection(messages, me, other, skip, take, ms) && ThreadShape(messages, me, other, skip, take, ms)
  }

  /** Reversed, ms is the window (skip, take) of the thread sorted newest
      first. */
  ghost predicate ThreadSelection(messages: map<string, Message>, me: string, other: string, skip: nat, take: nat, ms: seq<Message>) {
    IsSelection(Reverse(ms), |MatchingKeys(messages, ThreadFilter(me, other))|, messages, ThreadFilter(me, other), NewerFirst, skip, take)
  }

  /** What the window implies on its own: at most take thread messages,
      oldest first, all of the thread when the first window holds it. */
  predicate ThreadShape(messages: map<string, Message>, me: string, other: string, skip: nat, take: nat, ms: seq<Message>) {
    |ms| <= take &&
    (forall i :: 0 <= i < |ms| ==> InThread(me, other, ms[i]) && ms[i] in messages.Values) &&
    (forall i, j :: 0 <= i < j < |ms| ==> ms[i].createdAt <= ms[j].createdAt) &&
    (skip == 0 && |MatchingKeys(messages, ThreadFilter(me, other))| <= take ==>
       forall k :: k in messages && InThread(me, other, messages[k]) ==> messages[k] in ms)
  }

  lemma ReversedPage(messages: map<string, Message>, me: string, other: string, skip: nat, take: nat,
                     rows: seq<Message>, total: nat)
    requires total == |MatchingKeys(messages, ThreadFilter(me, other))|
    requires |rows| <= take
    requires forall i :: 0 <= i < |rows| ==> InThread(me, other, rows[i]) && rows[i] in messages.Values
    requires SortedBy(rows, NewerFirst)
    requires skip == 0 && total <= take ==> forall k :: k in messages && InThread(me, other, messages[k]) ==> messages[k] in rows
    ensures ThreadShape(messages, me, other, skip, take, Reverse(rows))
  {
    var ms := Reverse(rows);
    ReverseElements(rows);
    ReverseSortedBy(rows, NewerFirst);
    forall i | 0 <= i < |ms| ensures InThread(me, other, ms[i]) && ms[i] in messages.Values {
      assert ms[i] in rows;
    }
  }

  lemma ReversedSelection(messages: map<string, Message>, me: string, other: string, skip: nat, take: nat,
                          rows: seq<Message>, total: nat)
    requires IsSelection(rows, total, messages, ThreadFilter(me, other), NewerFirst, skip, take)
    requires total == |MatchingKeys(messages, ThreadFilter(me, other))|
    ensures ThreadSelection(messages, me, other, skip, take, Reverse(rows))
  {
    ReverseReverse(rows);
  }

  /** A page is never short: past the skip newest messages it holds take of
      the thread, or all that remain, and it is empty only when the skip
      passes the end of the thread. */
  lemma ThreadPageSize(messages: map<string, Message>, me: string, other: string, skip: nat, take: nat, ms: seq<Message>)
    requires ThreadPage(messages, me, other, skip, take, ms)
    ensures var total := |MatchingKeys(messages, ThreadFilter(me, other))|;
            (skip >= total ==> ms == []) &&
            (skip < total ==> |ms| == if total - skip < take then total - skip else take)
  {
    var total := |MatchingKeys(messages, ThreadFilter(me, other))|;
    assert ThreadSelection(messages, me, other, skip, take, ms);
    SelectionSize(Reverse(ms), total, messages, ThreadFilter(me, other), NewerFirst, skip, take);
  }

  /** The GET body: the thread with one user, or the per-partner summary of
      the raw query, which is not part of this model. */
  datatype MessagesBody = Thread(messages: seq<Message>) | ConversationSummaries

  const Unauthorized := "Unauthorized"
  const InternalError := "Internal Server Error"

  /** `GET /api/messages?with=…&page=…&limit=…`. The page of the thread is
      read newest first before the update and returned oldest first; the
      messages the other user sent to the current user are then marked read. */
  method GetMessages(db: Database, session: Option<Session>, with: Option<string>,
                     page: Option<string>, limit: Option<string>) returns (r: Response<MessagesBody>)
    modifies db`messages
    ensures session.None? ==> r == Err(401, Unauthorized)
    ensures (session.Some? && Present(with) &&
             Window(ParseInt(OrDefault(page, "1")), ParseInt(OrDefault(limit, "20"))).None?) ==> r == Err(500, InternalError)
    ensures session.Some? && !Present(with) ==> r == Ok(ConversationSummaries)
    ensures (session.Some? && Present(with) &&
             Window(ParseInt(OrDefault(page, "1")), ParseInt(OrDefault(limit, "20"))).Some?) ==> r.Ok? && r.value.Thread?
    ensures r.Ok? && r.value.Thread? ==>
              var w := Window(ParseInt(OrDefault(page, "1")), ParseInt(OrDefault(limit, "20")));
              session.Some? && Present(with) && w.Some? &&
              ThreadPage(old(db.messages), session.value.userId, with.value, w.value.0, w.value.1, r.value.messages)
    ensures r.Ok? && r.value.Thread? ==> db.messages == MarkRead(old(db.messages), with.value, session.value.userId)
    ensures !(r.Ok? && r.value.Thread?) ==> db.messages == old(db.messages)
  {
    if session.None? {
      return Err(401, Unauthorized);
    }
    if !Present(with) {
      return Ok(ConversationSummaries);
    }
    var me, other := session.value.userId, with.value;
    var w := Window(ParseInt(OrDefault(page, "1")), ParseInt(OrDefault(limit, "20")));
    if w.None? {
      return Err(500, InternalError);
    }
    var ms := ReadThread(db, me, other, w.value.0, w.value.1);
    r := Ok(Thread(ms));
  }

  /** The `with` branch of the GET: the page, then the update. */
  method ReadThread(db: Database, me: string, other: string, skip: nat, take: nat) returns (ms: seq<Message>)
    modifies db`messages
    ensures ThreadPage(old(db.messages), me, other, skip, take, ms)
    ensures db.messages == MarkRead(old(db.messages), other, me)
  {
    var messages := db.messages;
    ms := ThreadWindow(messages, me, other, skip, take);
    db.messages := MarkRead(db.messages, other, me);
  }

  /** The `findMany` of the thread, newest first, reversed to oldest first. */
  method ThreadWindow(messages: map<string, Message>, me: string, other: string, skip: nat, take: nat)
    returns (ms: seq<Message>)
    ensures ThreadPage(messages, me, other, skip, take, ms)
  {
    var rows, total := Select(messages, ThreadFilter(me, other), NewerFirst, skip, take);
    NewerFirstTotalPreorder();
    ReversedPage(messages, me, other, skip, take, rows, total);
    ReversedSelection(messages, me, other, skip, take, rows, total);
    ms := Reverse(rows);
  }

  /** The JSON body of a POST. */
  datatype NewMessage = NewMessage(recipientId: Option<string>, content: Option<string>)

  /** `POST /api/messages`: the message is created from the session's user
      to an existing recipient, unread, with the store's new id and time. */
  method SendMessage(db: Database, session: Option<Session>, body: NewMessage, newId: string, now: int)
    returns (r: Response<Message>)
    requires db.Valid()
    modifies db`messages
    ensures db.Valid()
    ensures session.None? ==> r == Err(401, Unauthorized)
    ensures session.Some? && (!Present(body.recipientId) || !Present(body.content)) ==>
              r == Err(400, "Missing recipientId or content")
    ensures (session.Some? && Present(body.recipientId) && Present(body.content) &&
             body.recipientId.value !in db.users) ==> r == Err(404, "Recipient not found")
    ensures (session.Some? && Present(body.recipientId) && Present(body.content) &&
             body.recipientId.value in db.users) ==> (r.Ok? <==> newId !in old(db.messages))
    ensures r.Err? && r.status == 500 ==> newId in old(db.messages)
    ensures r.Ok? ==>
              session.Some? && body.recipientId.Some? && body.content.Some? &&
              r.value == Message(newId, session.value.userId, body.recipientId.value, body.content.value, false, now) &&
              body.recipientId.value in db.users &&
              newId !in old(db.messages) && db.messages == old(db.messages)[newId := r.value]
    ensures r.Err? ==> db.messages == old(db.messages)
  {
    if session.None? {
      return Err(401, Unauthorized);
    }
    if !Present(body.recipientId) || !Present(body.content) {
      return Err(400, "Missing recipientId or content");
    }
    var recipientId := body.recipientId.value;
    if recipientId !in db.users {
      return Err(404, "Recipient not found");
    }
    if newId in db.messages {
      // the store refuses a second row with the same id
      return Err(500, InternalError);
    }
    var m := Message(newId, session.value.userId, recipientId, body.content.value, false, now);
    db.messages := db.messages[newId := m];
    r := Ok(m);
  }
}
