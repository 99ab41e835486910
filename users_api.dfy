/** /api/users?role=: the people a signed-in user may start a conversation
    with. The store query keeps the users of the requested role other than
    the caller; the handler then drops orphanage users without a verified
    profile and organization users without a profile. */
module UsersApi {
  import opened Http
  import opened Seqs
  import opened Store

  /** A user as the query selects it, with the profile of the requested
      kind when there is one. */
  datatype UserRow = UserRow(user: User, orphanage: Option<OrphanageProfile>, organization: Option<OrganizationProfile>)

  /** The `role` parameter, among the three roles a user can be listed
      under. */
  function ParseRole(s: string): (r: Option<Role>)
    ensures r.Some? ==> RoleName(r.value) == s && r.value != Unrecognized
    ensures r.None? <==> s !in ["ORPHANAGE", "ORGANIZATION", "ADMIN"]
  {
    if s == "ORPHANAGE" then Some(Orphanage)
    else if s == "ORGANIZATION" then Some(Organization)
    else if s == "ADMIN" then Some(Admin)
    else None
  }

  /** The query's `where`: that role, and not the caller. */
  function Queried(role: Role, callerId: string): UserRow -> bool {
    (u: UserRow) => u.user.role == role && u.user.id != callerId
  }

  /** The handler's filter on the query result. */
  function Listable(role: Role): UserRow -> bool {
    (u: UserRow) =>
      match role
      case Orphanage => u.orphanage.Some? && u.orphanage.value.verificationStatus == "VERIFIED"
      case Organization => u.organization.Some?
      case _ => true
  }

  /** What a user listed for `role` must satisfy. */
  predicate Contactable(role: Role, callerId: string, u: UserRow) {
    && u.user.role == role
    && u.user.id != callerId
    && (role == Orphanage ==> u.orphanage.Some? && u.orphanage.value.verificationStatus == "VERIFIED")
    && (role == Organization ==> u.organization.Some?)
  }

  function ContactableBy(role: Role, callerId: string): UserRow -> bool {
    (u: UserRow) => Contactable(role, callerId, u)
  }

  /** GET. `rows` is the users table in the order the store reads it. */
  function ListUsers(session: Option<Session>, role: Option<string>, rows: seq<UserRow>): (r: Response<seq<UserRow>>)
    ensures session.None? ==> r == Err(401, "Unauthorized")
    ensures session.Some? && !Present(role) ==> r == Err(400, "Role parameter is required")
    ensures session.Some? && Present(role) && ParseRole(role.value).None? ==> r == Err(400, "Invalid role")
    ensures r.Ok? <==> session.Some? && Present(role) && ParseRole(role.value).Some?
  {
    if session.None? then Err(401, "Unauthorized")
    else if !Present(role) then Err(400, "Role parameter is required")
    else
      match ParseRole(role.value)
      case None => Err(400, "Invalid role")
      case Some(asked) => Ok(Filter(Filter(rows, Queried(asked, session.value.userId)), Listable(asked)))
  }

  /** The list keeps the store's order and holds exactly the contactable
      users: never the caller, only the asked role, only verified
      orphanages, only organizations with a profile. */
  lemma ListUsersExact(session: Session, role: string, rows: seq<UserRow>)
    requires ParseRole(role).Some?
    ensures var r := ListUsers(Some(session), Some(role), rows);
            && r.Ok?
            && IsSubsequence(r.value, rows)
            && (forall u :: u in r.value <==> u in rows && Contactable(ParseRole(role).value, session.userId, u))
  {
    var asked := ParseRole(role).value;
    var queried := Filter(rows, Queried(asked, session.userId));
    var listed := Filter(queried, Listable(asked));
    var contactable := ContactableBy(asked, session.userId);
    FilterFilter(rows, Queried(asked, session.userId), Listable(asked), contactable);
    FilterIsSubsequence(rows, contactable);
    forall u ensures u in listed <==> u in rows && Contactable(asked, session.userId, u) {
      FilterMembers(rows, contactable, u);
    }
  }

  /** The caller is never offered as a contact. */
  lemma CallerNeverListed(session: Session, role: string, rows: seq<UserRow>)
    requires ParseRole(role).Some?
    ensures forall u :: u in ListUsers(Some(session), Some(role), rows).value ==> u.user.id != session.userId
  {
    ListUsersExact(session, role, rows);
  }
}
