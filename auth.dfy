/** lib/auth.ts: who is calling, and may they. The session lookup is a stub that returns the
    first user of the store whenever a session cookie is present; the model takes that first
    user as a parameter. */
module Auth {
  import opened Results
  import opened Schema

  const AuthenticationRequired := "Authentication required"
  const Unauthorized := "Unauthorized"

  /** `getCurrentUser`: no session token, no user. */
  function CurrentUser(sessionToken: string, firstUser: Option<User>): (r: Option<User>)
    ensures sessionToken == "" ==> r == None
    ensures sessionToken != "" ==> r == firstUser
  {
    if sessionToken == "" then None else firstUser
  }

  /** `requireAuth`: fails exactly when there is no current user, and otherwise hands it back. */
  function RequireAuth(current: Option<User>): (r: Result<User>)
    ensures r.Ok? <==> current.Some?
    ensures r.Ok? ==> r.value == current.value
    ensures r.Err? ==> r.message == AuthenticationRequired
  {
    match current
    case None => Err(AuthenticationRequired)
    case Some(u) => Ok(u)
  }

  /** `requireRole(role)`: the user `requireAuth` produced, provided its role is `role` or ADMIN. */
  function RequireRole(current: Option<User>, role: Role): (r: Result<User>)
    ensures r.Ok? <==> current.Some? && (current.value.role == role || current.value.role == Admin)
    ensures r.Ok? ==> RequireAuth(current) == Ok(r.value)
    ensures current.None? ==> r == Err(AuthenticationRequired)
    ensures current.Some? && r.Err? ==> r.message == Unauthorized
  {
    match RequireAuth(current)
    case Err(m) => Err(m)
    case Ok(user) => if user.role != role && user.role != Admin then Err(Unauthorized) else Ok(user)
  }

  /** ADMIN passes every role check; TEAM_MEMBER passes only its own; SCRUM_MASTER does not
      pass the ADMIN check. */
  lemma RoleChecks(u: User)
    ensures u.role == Admin ==> forall role :: RequireRole(Some(u), role) == Ok(u)
    ensures u.role == TeamMember ==> RequireRole(Some(u), ScrumMaster).Err? && RequireRole(Some(u), Admin).Err?
    ensures u.role == ScrumMaster ==> RequireRole(Some(u), Admin).Err?
  {
  }
}
