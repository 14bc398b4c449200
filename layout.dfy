/** The dashboard sidebar: the links each role gets and which of them is highlighted. */
module Layout {
  import opened Types
  import opened Routing

  /** `getLinks`, by the link targets; a missing role (`user?.role` undefined) gets the patient links. */
  function Links(role: Option<Role>): (links: seq<string>)
    ensures role == Some(AdminRole) ==>
      links == ["/dashboard", "/dashboard/doctors", "/dashboard/users", "/dashboard/appointments"]
    ensures role == Some(DoctorRole) ==> links == ["/dashboard", "/dashboard/appointments", "/dashboard/profile"]
    ensures role != Some(AdminRole) && role != Some(DoctorRole) ==>
      links == ["/dashboard", "/dashboard/book", "/dashboard/my-appointments", "/dashboard/profile"]
  {
    if role == Some(AdminRole) then
      ["/dashboard", "/dashboard/doctors", "/dashboard/users", "/dashboard/appointments"]
    else if role == Some(DoctorRole) then
      ["/dashboard", "/dashboard/appointments", "/dashboard/profile"]
    else
      ["/dashboard", "/dashboard/book", "/dashboard/my-appointments", "/dashboard/profile"]
  }

  /** `NavItem`'s highlight: the current path is exactly the link's target. */
  predicate IsActive(pathname: string, to: string) {
    pathname == to
  }

  /** At most one link of a sidebar is highlighted, whatever the path. */
  lemma OneActiveLink(role: Option<Role>, pathname: string, i: nat, j: nat)
    requires i < |Links(role)| && j < |Links(role)|
    requires IsActive(pathname, Links(role)[i]) && IsActive(pathname, Links(role)[j])
    ensures i == j
  {
  }

  /** Admins and patients reach every page their sidebar links to. */
  lemma AdminAndPatientLinksAdmitted(u: Account, k: nat)
    requires u.role != DoctorRole && k < |Links(Some(u.role))|
    ensures Visit(SignedIn(u), Links(Some(u.role))[k]).InLayout?
  {
    ProfileIsNotDoctors();
  }

  /**
   * The doctor's "Appointments" link points at an admin-only route, so following it sends the
   * doctor back to `/dashboard`; the doctor's other links are admitted.
   */
  lemma DoctorAppointmentsLinkRedirects(u: Account)
    requires u.role == DoctorRole
    ensures Links(Some(u.role))[1] == "/dashboard/appointments"
    ensures Visit(SignedIn(u), Links(Some(u.role))[1]) == RedirectTo("/dashboard")
    ensures Visit(SignedIn(u), Links(Some(u.role))[0]).InLayout?
    ensures Visit(SignedIn(u), Links(Some(u.role))[2]).InLayout?
  {
    ProfileIsNotDoctors();
  }
}
