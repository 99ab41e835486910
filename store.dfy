/** The persistent store behind the route handlers: one table per entity,
    each a map from row id to row, and the one query shape the handlers use
    (`findMany` with `where`, `orderBy`, `skip` and `take`). Dates are
    milliseconds since the epoch. */
module Store {
  import opened Http
  import opened Seqs

  datatype User = User(id: string, email: string, role: Role, createdAt: int)

  datatype OrphanageProfile = OrphanageProfile(
    id: string, userId: string, name: string, description: string, address: string,
    verificationStatus: string, score: real, visitCount: int, createdAt: int)

  datatype OrganizationProfile = OrganizationProfile(id: string, userId: string, name: string)

  /** A need's status is "ACTIVE" or "FULFILLED" in practice; the model keeps
      the stored text. */
  datatype Need = Need(id: string, orphanageId: string, description: string, status: string, createdAt: int)

  datatype EventStatus = Pending | Approved | Declined | Completed

  /** The enum's stored spelling. */
  function StatusName(s: EventStatus): string {
    match s
    case Pending => "PENDING"
    case Approved => "APPROVED"
    case Declined => "DECLINED"
    case Completed => "COMPLETED"
  }

  /** `Object.values(EventStatus).includes(s)`, and which value s names. */
  function ParseStatus(s: string): (r: Option<EventStatus>)
    ensures r.Some? ==> StatusName(r.value) == s
  {
    if s == "PENDING" then Some(Pending)
    else if s == "APPROVED" then Some(Approved)
    else if s == "DECLINED" then Some(Declined)
    else if s == "COMPLETED" then Some(Completed)
    else None
  }

  lemma ParseStatusName(s: EventStatus)
    ensures ParseStatus(StatusName(s)) == Some(s)
  {
  }

  datatype Event = Event(
    id: string, orphanageId: string, organizationId: string, title: string,
    description: Option<string>, proposedDate: int, status: EventStatus)

  datatype Visit = Visit(
    id: string, orphanageId: string, organizationId: string, visitDate: int,
    purpose: string, notes: Option<string>)

  datatype Message = Message(
    id: string, senderId: string, recipientId: string, content: string, isRead: bool, createdAt: int)

  /** `need => need.id !== id`. */
  function OtherThan(id: string): Need -> bool {
    (n: Need) => n.id != id
  }

  /** ks lists every key of m exactly once: the order in which a table
      hands out its rows, which nothing in the store fixes. */
  predicate Enumerates<T>(ks: seq<string>, m: map<string, T>) {
    Distinct(ks) && (forall i :: 0 <= i < |ks| ==> ks[i] in m) && (forall k :: k in m ==> k in ks)
  }

  function RowsAt<T>(m: map<string, T>, ks: seq<string>): (r: seq<T>)
    requires forall i :: 0 <= i < |ks| ==> ks[i] in m
    ensures |r| == |ks| && forall i :: 0 <= i < |ks| ==> r[i] == m[ks[i]]
  {
    seq(|ks|, i requires 0 <= i < |ks| => m[ks[i]])
  }

  /** The keys whose rows satisfy p: what `count({ where })` counts. */
  function MatchingKeys<T>(m: map<string, T>, p: T -> bool): set<string> {
    set k | k in m && p(m[k])
  }

  /** r and total are what `findMany` and `count` return for the filter p,
      the order le, and the window (skip, take): the matching rows sorted
      stably from some enumeration of the table, then the window of them. */
  ghost predicate IsSelection<T(!new)>(r: seq<T>, total: nat, m: map<string, T>, p: T -> bool,
                                 le: (T, T) -> bool, skip: nat, take: nat) {
    exists ks :: Enumerates(ks, m) &&
      var all := SortBy(Filter(RowsAt(m, ks), p), le);
      total == |all| && r == Page(all, skip, take)
  }

  /** A selection holds every row of the window: all of them past skip when
      fewer than take remain, otherwise exactly take. */
  lemma SelectionSize<T(!new)>(r: seq<T>, total: nat, m: map<string, T>, p: T -> bool,
                               le: (T, T) -> bool, skip: nat, take: nat)
    requires IsSelection(r, total, m, p, le, skip, take)
    ensures skip >= total ==> r == []
    ensures skip < total ==> |r| == if total - skip < take then total - skip else take
  {
    var ks :| Enumerates(ks, m) &&
      var all := SortBy(Filter(RowsAt(m, ks), p), le);
      total == |all| && r == Page(all, skip, take);
  }

  lemma {:induction false} FilterCount<T>(m: map<string, T>, ks: seq<string>, p: T -> bool)
    requires Distinct(ks) && forall i :: 0 <= i < |ks| ==> ks[i] in m
    ensures |Filter(RowsAt(m, ks), p)| == |set k | k in ks && p(m[k])|
  {
    if ks != [] {
      FilterCount(m, ks[1..], p);
      FilterRowsSplit(m, ks, p);
      MatchingSplit(m, ks, p);
    }
  }

  lemma FilterRowsSplit<T>(m: map<string, T>, ks: seq<string>, p: T -> bool)
    requires ks != [] && forall i :: 0 <= i < |ks| ==> ks[i] in m
    ensures |Filter(RowsAt(m, ks), p)| == (if p(m[ks[0]]) then 1 else 0) + |Filter(RowsAt(m, ks[1..]), p)|
  {
    var rs := RowsAt(m, ks);
    assert rs[0] == m[ks[0]] && rs[1..] == RowsAt(m, ks[1..]);
  }

  lemma MatchingSplit<T>(m: map<string, T>, ks: seq<string>, p: T -> bool)
    requires ks != [] && Distinct(ks)
    requires forall i :: 0 <= i < |ks| ==> ks[i] in m
    ensures |set k | k in ks && p(m[k])| == (if p(m[ks[0]]) then 1 else 0) + |set k | k in ks[1..] && p(m[k])|
  {
    var st := set k | k in ks[1..] && p(m[k]);
    assert ks[0] !in ks[1..];
    if p(m[ks[0]]) {
      assert (set k | k in ks && p(m[k])) == st + {ks[0]};
    } else {
      assert (set k | k in ks && p(m[k])) == st;
    }
  }

  lemma SortedSlice<T>(s: seq<T>, le: (T, T) -> bool, i: nat, j: nat)
    requires SortedBy(s, le) && i <= j <= |s|
    ensures SortedBy(s[i..j], le)
  {
    forall a, b | 0 <= a < b < j - i ensures le(s[i..j][a], s[i..j][b]) {
      assert s[i..j][a] == s[i + a] && s[i..j][b] == s[i + b];
    }
  }

  /** Lists the keys of m in some order. */
  method KeysOf<T>(m: map<string, T>) returns (ks: seq<string>)
    ensures Enumerates(ks, m)
  {
    ks := [];
    var rest := m.Keys;
    while rest != {}
      invariant Distinct(ks)
      invariant forall i :: 0 <= i < |ks| ==> ks[i] in m && ks[i] !in rest
      invariant forall k :: k in m ==> k in ks || k in rest
      invariant rest <= m.Keys
      decreases |rest|
    {
      var k :| k in rest;
      ks := ks + [k];
      rest := rest - {k};
    }
  }

  /** The sorted matching rows of one enumeration of the table. */
  function Ordered<T>(m: map<string, T>, ks: seq<string>, p: T -> bool, le: (T, T) -> bool): seq<T>
    requires Enumerates(ks, m)
  {
    SortBy(Filter(RowsAt(m, ks), p), le)
  }

  lemma OrderedCount<T>(m: map<string, T>, ks: seq<string>, p: T -> bool, le: (T, T) -> bool)
    requires Enumerates(ks, m)
    ensures |Ordered(m, ks, p, le)| == |MatchingKeys(m, p)|
  {
    FilterCount(m, ks, p);
    assert (set k | k in ks && p(m[k])) == MatchingKeys(m, p);
  }

  lemma OrderedMembers<T>(m: map<string, T>, ks: seq<string>, p: T -> bool, le: (T, T) -> bool)
    requires Enumerates(ks, m)
    ensures forall x :: x in Ordered(m, ks, p, le) ==> p(x) && x in m.Values
    ensures forall k :: k in m && p(m[k]) ==> m[k] in Ordered(m, ks, p, le)
  {
    var rows := RowsAt(m, ks);
    var matching := Filter(rows, p);
    var all := Ordered(m, ks, p, le);
    forall x | x in all ensures p(x) && x in m.Values {
      assert x in multiset(matching);
    }
    forall k | k in m && p(m[k]) ensures m[k] in all {
      var i :| 0 <= i < |ks| && ks[i] == k;
      assert rows[i] == m[k];
      assert m[k] in multiset(matching);
    }
  }

  lemma PageSorted<T(!new)>(all: seq<T>, le: (T, T) -> bool, skip: nat, take: nat)
    requires SortedBy(all, le)
    ensures SortedBy(Page(all, skip, take), le)
  {
    var r := Page(all, skip, take);
    if skip < |all| {
      SortedSlice(all, le, skip, skip + |r|);
      assert r == all[skip..skip + |r|];
    }
  }

  lemma PageFacts<T(!new)>(m: map<string, T>, ks: seq<string>, p: T -> bool, le: (T, T) -> bool, skip: nat, take: nat)
    requires Enumerates(ks, m)
    ensures var all := Ordered(m, ks, p, le); var r := Page(all, skip, take);
      (forall i :: 0 <= i < |r| ==> p(r[i]) && r[i] in m.Values) &&
      (skip == 0 && |all| <= take ==> forall k :: k in m && p(m[k]) ==> m[k] in r)
  {
    var all := Ordered(m, ks, p, le);
    OrderedMembers(m, ks, p, le);
    PageMembers(all, skip, take);
  }

  lemma PageOrdered<T(!new)>(m: map<string, T>, ks: seq<string>, p: T -> bool, le: (T, T) -> bool, skip: nat, take: nat)
    requires Enumerates(ks, m)
    ensures TotalPreorder(le) ==> SortedBy(Page(Ordered(m, ks, p, le), skip, take), le)
  {
    if TotalPreorder(le) {
      SortBySorted(Filter(RowsAt(m, ks), p), le);
      PageSorted(Ordered(m, ks, p, le), le, skip, take);
    }
  }

  /** `findMany({ where: p, orderBy: le, skip, take })` together with
      `count({ where: p })`. */
  method Select<T(==,!new)>(m: map<string, T>, p: T -> bool, le: (T, T) -> bool, skip: nat, take: nat)
    returns (r: seq<T>, total: nat)
    ensures IsSelection(r, total, m, p, le, skip, take)
    ensures total == |MatchingKeys(m, p)|
    ensures |r| <= take && |r| <= total
    ensures forall i :: 0 <= i < |r| ==> p(r[i]) && r[i] in m.Values
    ensures TotalPreorder(le) ==> SortedBy(r, le)
    ensures skip == 0 && total <= take ==> forall k :: k in m && p(m[k]) ==> m[k] in r
  {
    var ks := KeysOf(m);
    var all := Ordered(m, ks, p, le);
    total := |all|;
    r := Page(all, skip, take);
    OrderedCount(m, ks, p, le);
    PageFacts(m, ks, p, le, skip, take);
    PageOrdered(m, ks, p, le, skip, take);
  }

  /** r is the rows of m that satisfy p, sorted stably by le from some
      enumeration of the table: `findMany({ where: p, orderBy: le })`
      without a window. */
  ghost predicate IsOrdering<T(!new)>(r: seq<T>, m: map<string, T>, p: T -> bool, le: (T, T) -> bool) {
    exists ks :: Enumerates(ks, m) && r == Ordered(m, ks, p, le)
  }

  /** `findMany({ where: p, orderBy: le })`. */
  method SelectAll<T(==,!new)>(m: map<string, T>, p: T -> bool, le: (T, T) -> bool) returns (r: seq<T>)
    ensures IsOrdering(r, m, p, le)
    ensures |r| == |MatchingKeys(m, p)|
    ensures forall i :: 0 <= i < |r| ==> p(r[i]) && r[i] in m.Values
    ensures forall k :: k in m && p(m[k]) ==> m[k] in r
    ensures TotalPreorder(le) ==> SortedBy(r, le)
  {
    var ks := KeysOf(m);
    r := Ordered(m, ks, p, le);
    OrderedCount(m, ks, p, le);
    OrderedMembers(m, ks, p, le);
    if TotalPreorder(le) {
      SortBySorted(Filter(RowsAt(m, ks), p), le);
    }
  }

  /** `count({ where: p })`. */
  method CountRows<T>(m: map<string, T>, p: T -> bool) returns (n: nat)
    ensures n == |MatchingKeys(m, p)|
  {
    var ks := KeysOf(m);
    FilterCount(m, ks, p);
    assert (set k | k in ks && p(m[k])) == MatchingKeys(m, p);
    n := |Filter(RowsAt(m, ks), p)|;
  }

  /** p is the orphanage profile stored for the user. */
  predicate IsOrphanageOf(orphanages: map<string, OrphanageProfile>, userId: string, p: OrphanageProfile) {
    p.id in orphanages && orphanages[p.id] == p && p.userId == userId
  }

  /** p is the organization profile stored for the user. */
  predicate IsOrganizationOf(organizations: map<string, OrganizationProfile>, userId: string, p: OrganizationProfile) {
    p.id in organizations && organizations[p.id] == p && p.userId == userId
  }

  class Database {
    var users: map<string, User>
    var orphanages: map<string, OrphanageProfile>
    var organizations: map<string, OrganizationProfile>
    var needs: map<string, Need>
    var events: map<string, Event>
    var visits: map<string, Visit>
    var messages: map<string, Message>
    /** The unique indexes on the profiles' `userId`: the key of each user's
        profile of either kind. */
    ghost var orphanageIndex: map<string, string>
    ghost var organizationIndex: map<string, string>

    /** Every row is stored under its own id, every profile belongs to a
        stored user (the foreign key on `userId`), and the indexes lead from
        a user to that user's profile, so a user has at most one of each
        kind (the unique index `findUnique` looks up). */
    ghost predicate Valid()
      reads this
    {
      (forall k :: k in users ==> users[k].id == k) &&
      (forall k :: k in orphanages ==> orphanages[k].id == k) &&
      (forall k :: k in organizations ==> organizations[k].id == k) &&
      (forall k :: k in orphanages ==> orphanages[k].userId in users) &&
      (forall k :: k in organizations ==> organizations[k].userId in users) &&
      (forall k :: k in orphanages ==> orphanages[k].userId in orphanageIndex && orphanageIndex[orphanages[k].userId] == k) &&
      (forall k :: k in organizations ==>
         organizations[k].userId in organizationIndex && organizationIndex[organizations[k].userId] == k) &&
      (forall k :: k in needs ==> needs[k].id == k) &&
      (forall k :: k in events ==> events[k].id == k) &&
      (forall k :: k in visits ==> visits[k].id == k) &&
      (forall k :: k in messages ==> messages[k].id == k)
    }

    constructor ()
      ensures Valid()
      ensures users == map[] && orphanages == map[] && organizations == map[]
      ensures needs == map[] && events == map[] && visits == map[] && messages == map[]
    {
      users, orphanages, organizations := map[], map[], map[];
      needs, events, visits, messages := map[], map[], map[], map[];
      orphanageIndex, organizationIndex := map[], map[];
    }

    /** `orphanageProfile.findUnique({ where: { userId } })`. */
    method OrphanageOfUser(userId: string) returns (p: Option<OrphanageProfile>)
      requires Valid()
      ensures p.Some? ==> IsOrphanageOf(orphanages, userId, p.value)
      ensures p.None? <==> forall k :: k in orphanages ==> orphanages[k].userId != userId
    {
      p := None;
      if exists k :: k in orphanages && orphanages[k].userId == userId {
        var k :| k in orphanages && orphanages[k].userId == userId;
        p := Some(orphanages[k]);
      }
    }

    /** `organizationProfile.findUnique({ where: { userId } })`. */
    method OrganizationOfUser(userId: string) returns (p: Option<OrganizationProfile>)
      requires Valid()
      ensures p.Some? ==> IsOrganizationOf(organizations, userId, p.value)
      ensures p.None? <==> forall k :: k in organizations ==> organizations[k].userId != userId
    {
      p := None;
      if exists k :: k in organizations && organizations[k].userId == userId {
        var k :| k in organizations && organizations[k].userId == userId;
        p := Some(organizations[k]);
      }
    }
  }

  /** The caller has no orphanage profile. */
  predicate NoOrphanage(orphanages: map<string, OrphanageProfile>, userId: string) {
    forall k :: k in orphanages ==> orphanages[k].userId != userId
  }

  predicate IsOrphanageSession(session: Option<Session>) {
    session.Some? && session.value.role == Orphanage
  }

  /** The orphanage routes' guard: 401 for anyone but an orphanage
      user, 404 when that user has no profile, otherwise the profile. */
  method CallerOrphanage(db: Database, session: Option<Session>) returns (r: Response<OrphanageProfile>)
    requires db.Valid()
    ensures !IsOrphanageSession(session) ==> r == Err(401, "Unauthorized")
    ensures IsOrphanageSession(session) && NoOrphanage(db.orphanages, session.value.userId) ==>
              r == Err(404, "Orphanage profile not found")
    ensures r.Ok? <==> IsOrphanageSession(session) && !NoOrphanage(db.orphanages, session.value.userId)
    ensures r.Ok? ==> IsOrphanageOf(db.orphanages, session.value.userId, r.value)
  {
    if !IsOrphanageSession(session) {
      return Err(401, "Unauthorized");
    }
    var profile := db.OrphanageOfUser(session.value.userId);
    if profile.None? {
      return Err(404, "Orphanage profile not found");
    }
    r := Ok(profile.value);
  }

  /** The caller has no organization profile. */
  predicate NoOrganization(organizations: map<string, OrganizationProfile>, userId: string) {
    forall k :: k in organizations ==> organizations[k].userId != userId
  }

  predicate IsOrganizationSession(session: Option<Session>) {
    session.Some? && session.value.role == Organization
  }

  /** The organization routes' guard: 401 for anyone but an organization
      user, 404 when that user has no profile, otherwise the profile. */
  method CallerOrganization(db: Database, session: Option<Session>) returns (r: Response<OrganizationProfile>)
    requires db.Valid()
    ensures !IsOrganizationSession(session) ==> r == Err(401, "Unauthorized")
    ensures IsOrganizationSession(session) && NoOrganization(db.organizations, session.value.userId) ==>
              r == Err(404, "Organization profile not found")
    ensures r.Ok? <==> IsOrganizationSession(session) && !NoOrganization(db.organizations, session.value.userId)
    ensures r.Ok? ==> IsOrganizationOf(db.organizations, session.value.userId, r.value)
  {
    if !IsOrganizationSession(session) {
      return Err(401, "Unauthorized");
    }
    var profile := db.OrganizationOfUser(session.value.userId);
    if profile.None? {
      return Err(404, "Organization profile not found");
    }
    r := Ok(profile.value);
  }
}
