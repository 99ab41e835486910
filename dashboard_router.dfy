/** /dashboard: sends each visitor to the page for its role, or to profile
    setup when the role needs a profile the user has not made yet. */
module DashboardRouter {
  import opened Http
  import opened Store

  /** The session's user as the page reads it; either part may be missing. */
  datatype Visitor = Visitor(id: Option<string>, role: Option<string>)

  const Login := "/login"
  const SetupProfile := "/setup-profile"
  const OrphanageDashboard := "/dashboard/orphanage"
  const OrganizationDashboard := "/dashboard/organization"
  const AdminDashboard := "/dashboard/admin"

  /** The redirect target. The profile lookups are the two tables. */
  function Redirect(v: Option<Visitor>, orphanages: map<string, OrphanageProfile>,
                    organizations: map<string, OrganizationProfile>): (target: string)
    ensures target in {Login, SetupProfile, OrphanageDashboard, OrganizationDashboard, AdminDashboard}
    ensures v.None? || !Present(v.value.id) || !Present(v.value.role) ==> target == Login
  {
    if v.None? || !Present(v.value.id) || !Present(v.value.role) then Login
    else
      var id, role := v.value.id.value, v.value.role.value;
      if role == "ORPHANAGE" then
        if NoOrphanage(orphanages, id) then SetupProfile else OrphanageDashboard
      else if role == "ORGANIZATION" then
        if NoOrganization(organizations, id) then SetupProfile else OrganizationDashboard
      else if role == "ADMIN" then AdminDashboard
      else Login
  }

  /** Each dashboard is reached by exactly the users it is for: a role's
      dashboard needs that role and, for the two profile roles, a profile;
      setup is reached by a profile role without its profile; anyone else
      goes to the login page. */
  lemma RedirectTable(v: Visitor, orphanages: map<string, OrphanageProfile>,
                      organizations: map<string, OrganizationProfile>)
    requires Present(v.id) && Present(v.role)
    ensures var target := Redirect(Some(v), orphanages, organizations);
            && (target == OrphanageDashboard <==> v.role.value == "ORPHANAGE" && !NoOrphanage(orphanages, v.id.value))
            && (target == OrganizationDashboard <==> v.role.value == "ORGANIZATION" && !NoOrganization(organizations, v.id.value))
            && (target == AdminDashboard <==> v.role.value == "ADMIN")
            && (target == SetupProfile <==>
                 (v.role.value == "ORPHANAGE" && NoOrphanage(orphanages, v.id.value)) ||
                 (v.role.value == "ORGANIZATION" && NoOrganization(organizations, v.id.value)))
            && (target == Login <==> v.role.value !in {"ORPHANAGE", "ORGANIZATION", "ADMIN"})
  {
  }

  /** The dashboard page and the API routes agree: a user the page sends to
      the orphanage (organization) dashboard passes the orphanage
      (organization) routes' guard, which answers with a profile rather than
      401 or 404. */
  lemma RouterAgreesWithGuards(s: Session, orphanages: map<string, OrphanageProfile>,
                               organizations: map<string, OrganizationProfile>)
    requires s.userId != "" && s.role != Unrecognized
    ensures var target := Redirect(Some(Visitor(Some(s.userId), Some(RoleName(s.role)))), orphanages, organizations);
            && (target == OrphanageDashboard <==> IsOrphanageSession(Some(s)) && !NoOrphanage(orphanages, s.userId))
            && (target == OrganizationDashboard <==> IsOrganizationSession(Some(s)) && !NoOrganization(organizations, s.userId))
  {
    RedirectTable(Visitor(Some(s.userId), Some(RoleName(s.role))), orphanages, organizations);
  }
}
