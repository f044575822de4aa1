/** The guard every protected page sits behind: while the session is being
    restored it shows a spinner, without a user it sends to the login page,
    an agency awaiting approval gets the approval page, and everybody else
    gets the page itself. */
module RouteGuard {
  import opened Wrappers
  import opened Types
  import Permissions

  /** The four things the guard can render; `RedirectLogin` is a replace
      navigation to `/auth/login`. */
  datatype GuardOutcome = Loading | RedirectLogin | PendingApproval | Authorized

  /** `ProtectedRoute`, over the loading flag and the current user of the
      authentication context. */
  function Guard(isLoading: bool, user: Option<User>): (r: GuardOutcome)
    ensures isLoading <==> r == Loading
    ensures r == RedirectLogin <==> !isLoading && user.None?
    ensures r == PendingApproval <==>
      !isLoading && user.Some? && user.value.role == Agence && user.value.statut == Some(EnAttente)
    ensures r == Authorized <==>
      !isLoading && user.Some? && !(user.value.role == Agence && user.value.statut == Some(EnAttente))
  {
    if isLoading then Loading
    else if user.None? then RedirectLogin
    else if user.value.role == Agence && user.value.statut == Some(EnAttente) then PendingApproval
    else Authorized
  }

  /** The guard looks at the role and the account state only: changing the
      grant list never changes what it renders. */
  lemma GuardIgnoresGrants(isLoading: bool, u: User, grants: Option<seq<Permission>>)
    ensures Guard(isLoading, Some(u.(permissions := grants))) == Guard(isLoading, Some(u))
  {
  }

  /** Only an agency can be held at the approval page: a superadmin or an
      agent awaiting approval, or a suspended user of any role, gets through. */
  lemma OnlyPendingAgencyHeld(u: User)
    requires u.role != Agence || u.statut != Some(EnAttente)
    ensures Guard(false, Some(u)) == Authorized
  {
  }

  /** An agent without any grant passes the guard although the permission
      evaluator refuses every action: the guard does not consult it. */
  lemma GuardIndependentOfPermissions(u: User, m: string, a: string)
    requires u.role == Agent && u.permissions == Some([])
    ensures Guard(false, Some(u)) == Authorized
    ensures !Permissions.HasPermission(Some(u), m, a)
  {
  }
}
