/** The conversation list of the message centre: one entry per other
    participant, taken from the messages of the current user. */
module Conversations {
  import opened Text
  import opened Http
  import opened Store
  import opened Seqs

  /** The other participant of a message, seen from user me. */
  function Partner(me: string, m: Message): string {
    if m.senderId == me then m.recipientId else m.senderId
  }

  /** c has u as sender or recipient. */
  predicate Involves(c: Message, u: string) {
    c.senderId == u || c.recipientId == u
  }

  /** Some message of acc involves u: the `find` of the component. */
  predicate Covered(acc: seq<Message>, u: string) {
    exists c :: c in acc && Involves(c, u)
  }

  /** The `reduce` of the component, one message at a time: a message is
      kept when no message kept before it involves its partner. */
  function Grouped(me: string, msgs: seq<Message>): (r: seq<Message>)
    ensures |r| <= |msgs|
    ensures forall i :: 0 <= i < |r| ==> r[i] in msgs
  {
    if msgs == [] then []
    else
      var acc := Grouped(me, msgs[..|msgs| - 1]);
      var m := msgs[|msgs| - 1];
      if Covered(acc, Partner(me, m)) then acc else acc + [m]
  }

  lemma GroupedStep(me: string, msgs: seq<Message>)
    requires msgs != []
    ensures var acc := Grouped(me, msgs[..|msgs| - 1]);
            var m := msgs[|msgs| - 1];
            Grouped(me, msgs) == if Covered(acc, Partner(me, m)) then acc else acc + [m]
  {
  }

  /** A message always involves its own partner. */
  lemma InvolvesPartner(me: string, c: Message)
    ensures Involves(c, Partner(me, c))
  {
  }

  /** `acc.find(conv => conv.senderId === u || conv.recipientId === u)`,
      reduced to whether it finds something. */
  method FindInvolving(acc: seq<Message>, u: string) returns (found: bool)
    ensures found <==> Covered(acc, u)
  {
    found := false;
    var j := 0;
    while j < |acc| && !found
      invariant 0 <= j <= |acc|
      invariant found <==> Covered(acc[..j], u)
    {
      assert acc[..j + 1] == acc[..j] + [acc[j]];
      found := Involves(acc[j], u);
      j := j + 1;
    }
    assert !found ==> acc[..j] == acc;
    if found {
      var c :| c in acc[..j] && Involves(c, u);
      assert c in acc;
    }
  }

  /** `uniqueConversations`, computed as the component computes it. */
  method UniqueConversations(me: string, msgs: seq<Message>) returns (acc: seq<Message>)
    ensures acc == Grouped(me, msgs)
  {
    acc := [];
    var i := 0;
    while i < |msgs|
      invariant 0 <= i <= |msgs|
      invariant acc == Grouped(me, msgs[..i])
    {
      assert msgs[..i + 1][..i] == msgs[..i];
      GroupedStep(me, msgs[..i + 1]);
      var found := FindInvolving(acc, Partner(me, msgs[i]));
      if !found {
        acc := acc + [msgs[i]];
      }
      i := i + 1;
    }
    assert msgs[..i] == msgs;
  }

  /** Every partner of the user's messages has an entry that involves it. */
  lemma {:induction false} EveryPartnerCovered(me: string, msgs: seq<Message>)
    ensures forall i :: 0 <= i < |msgs| ==> Covered(Grouped(me, msgs), Partner(me, msgs[i]))
  {
    if msgs != [] {
      var prefix := msgs[..|msgs| - 1];
      EveryPartnerCovered(me, prefix);
      var acc := Grouped(me, prefix);
      var m := msgs[|msgs| - 1];
      var r := Grouped(me, msgs);
      GroupedStep(me, msgs);
      forall i | 0 <= i < |msgs| ensures Covered(r, Partner(me, msgs[i])) {
        if i < |msgs| - 1 {
          assert msgs[i] == prefix[i];
          var c :| c in acc && Involves(c, Partner(me, msgs[i]));
          assert c in r;
        } else if !Covered(acc, Partner(me, m)) {
          assert r[|r| - 1] == m;
          InvolvesPartner(me, m);
        }
      }
    }
  }

  /** No two entries share a partner. */
  lemma {:induction false} PartnersDistinct(me: string, msgs: seq<Message>)
    ensures var r := Grouped(me, msgs);
            forall i, j :: 0 <= i < j < |r| ==> Partner(me, r[i]) != Partner(me, r[j])
  {
    if msgs != [] {
      var prefix := msgs[..|msgs| - 1];
      PartnersDistinct(me, prefix);
      var acc := Grouped(me, prefix);
      var m := msgs[|msgs| - 1];
      var r := Grouped(me, msgs);
      GroupedStep(me, msgs);
      if !Covered(acc, Partner(me, m)) {
        forall i, j | 0 <= i < j < |r| ensures Partner(me, r[i]) != Partner(me, r[j]) {
          assert r[i] == acc[i];
          if j == |r| - 1 {
            InvolvesPartner(me, acc[i]);
            assert acc[i] in acc;
            assert r[j] == m;
          } else {
            assert r[j] == acc[j];
          }
        }
      }
    }
  }

  /** The entries keep the order the messages came in: they are the
      messages with the repeats deleted. */
  lemma {:induction false} GroupedIsSubsequence(me: string, msgs: seq<Message>)
    ensures IsSubsequence(Grouped(me, msgs), msgs)
  {
    if msgs != [] {
      var prefix := msgs[..|msgs| - 1];
      var m := msgs[|msgs| - 1];
      var acc := Grouped(me, prefix);
      GroupedIsSubsequence(me, prefix);
      GroupedStep(me, msgs);
      SubsequenceSnoc(acc, prefix, m);
      InitLast(msgs);
    }
  }

  /** No entry's partner is involved in an entry before it. */
  predicate NoneCovered(me: string, s: seq<Message>) {
    forall j :: 0 <= j < |s| ==> !Covered(s[..j], Partner(me, s[j]))
  }

  lemma {:induction false} GroupedNoneCovered(me: string, msgs: seq<Message>)
    ensures NoneCovered(me, Grouped(me, msgs))
  {
    if msgs != [] {
      var prefix := msgs[..|msgs| - 1];
      var m := msgs[|msgs| - 1];
      var acc := Grouped(me, prefix);
      GroupedNoneCovered(me, prefix);
      GroupedStep(me, msgs);
      if !Covered(acc, Partner(me, m)) {
        var r := acc + [m];
        forall j | 0 <= j < |r| ensures !Covered(r[..j], Partner(me, r[j])) {
          if j < |acc| {
            assert r[..j] == acc[..j] && r[j] == acc[j];
          } else {
            assert r[..j] == acc && r[j] == m;
          }
        }
      }
    }
  }

  lemma NoneCoveredInit(me: string, s: seq<Message>)
    requires s != [] && NoneCovered(me, s)
    ensures NoneCovered(me, s[..|s| - 1])
    ensures !Covered(s[..|s| - 1], Partner(me, s[|s| - 1]))
  {
    var prefix := s[..|s| - 1];
    forall j | 0 <= j < |prefix| ensures !Covered(prefix[..j], Partner(me, prefix[j])) {
      assert prefix[..j] == s[..j] && prefix[j] == s[j];
    }
  }

  /** Grouping a list in which no entry repeats an earlier partner keeps it
      whole. */
  lemma {:induction false} GroupedKeepsNoneCovered(me: string, s: seq<Message>)
    requires NoneCovered(me, s)
    ensures Grouped(me, s) == s
  {
    if s != [] {
      var prefix := s[..|s| - 1];
      NoneCoveredInit(me, s);
      GroupedKeepsNoneCovered(me, prefix);
      GroupedStep(me, s);
      InitLast(s);
    }
  }

  /** De-duplicating the conversation list again changes nothing. */
  lemma GroupedIdempotent(me: string, msgs: seq<Message>)
    ensures Grouped(me, Grouped(me, msgs)) == Grouped(me, msgs)
  {
    GroupedNoneCovered(me, msgs);
    GroupedKeepsNoneCovered(me, Grouped(me, msgs));
  }

  /** c is msgs[i] for an index i before which no message has c's partner. */
  predicate FirstWithPartner(me: string, msgs: seq<Message>, c: Message) {
    exists i :: 0 <= i < |msgs| && msgs[i] == c && NoPartnerBefore(me, msgs, i, Partner(me, c))
  }

  predicate NoPartnerBefore(me: string, msgs: seq<Message>, i: int, u: string)
    requires 0 <= i <= |msgs|
  {
    forall i' :: 0 <= i' < i ==> Partner(me, msgs[i']) != u
  }

  lemma FirstWithPartnerExtend(me: string, msgs: seq<Message>, c: Message)
    requires msgs != [] && FirstWithPartner(me, msgs[..|msgs| - 1], c)
    ensures FirstWithPartner(me, msgs, c)
  {
    var prefix := msgs[..|msgs| - 1];
    var i :| 0 <= i < |prefix| && prefix[i] == c && NoPartnerBefore(me, prefix, i, Partner(me, c));
    assert msgs[i] == c;
    assert forall i' :: 0 <= i' < i ==> msgs[i'] == prefix[i'];
  }

  /** The entry kept for a partner is the first message with that partner. */
  lemma {:induction false} FirstMessageKept(me: string, msgs: seq<Message>)
    ensures var r := Grouped(me, msgs);
            forall j :: 0 <= j < |r| ==> FirstWithPartner(me, msgs, r[j])
  {
    if msgs != [] {
      var prefix := msgs[..|msgs| - 1];
      FirstMessageKept(me, prefix);
      EveryPartnerCovered(me, prefix);
      var acc := Grouped(me, prefix);
      var m := msgs[|msgs| - 1];
      var r := Grouped(me, msgs);
      GroupedStep(me, msgs);
      forall j | 0 <= j < |r| ensures FirstWithPartner(me, msgs, r[j]) {
        if j < |acc| {
          assert r[j] == acc[j];
          FirstWithPartnerExtend(me, msgs, acc[j]);
        } else {
          assert r[j] == m && !Covered(acc, Partner(me, m));
          forall i' | 0 <= i' < |msgs| - 1 ensures Partner(me, msgs[i']) != Partner(me, m) {
            assert msgs[i'] == prefix[i'];
          }
          assert NoPartnerBefore(me, msgs, |msgs| - 1, Partner(me, m));
        }
      }
    }
  }

  /** A contact as the conversation list shows it: the user and the
      orphanage or organization profile it may have. */
  datatype Contact = Contact(id: string, email: string, orphanageName: Option<string>, organizationName: Option<string>)

  /** `otherProfile?.name || otherUser.email`, where the orphanage profile
      wins over the organization profile when both exist. */
  function DisplayName(u: Contact): (r: string)
    ensures u.orphanageName.Some? && u.orphanageName.value != "" ==> r == u.orphanageName.value
    ensures u.orphanageName.None? && u.organizationName.Some? && u.organizationName.value != "" ==> r == u.organizationName.value
    ensures r == u.email || Some(r) == u.orphanageName || Some(r) == u.organizationName
    ensures r == "" ==> u.email == ""
  {
    var profile := if u.orphanageName.Some? then u.orphanageName else u.organizationName;
    if Present(profile) then profile.value else u.email
  }

  /** The avatar letter: `profileName.charAt(0).toUpperCase()`. */
  function AvatarLetter(name: string): (r: string)
    ensures name == [] <==> r == []
    ensures name != [] && 'a' <= name[0] <= 'z' ==> r == [(name[0] as int - 32) as char]
    ensures name != [] && name[0] as int < 0x61 ==> r == [name[0]]
  {
    if name == [] then [] else UpperChar(name[0])
  }
}
