/** The role gate in front of every protected route (middleware/auth.js). */
module AccessControl {
  import opened Wrappers
  import opened Store

  const LoginUrl := "/auth/login"
  const AdminRole := "admin"
  const DeniedMessage := "Access Denied: Insufficient Permissions"

  /** What a handler sends back without passing the request on. */
  datatype Reply =
    | Redirect(url: string)
    | Render(view: string)
    | Forbidden(status: int, view: string, message: string, backUrl: string)
    | Send(body: string)

  /** A middleware either calls `next()` or answers the request itself. */
  datatype Decision = Next | Stop(reply: Reply)

  /** The only 403 the gate produces. */
  const Denied := Forbidden(403, "error", DeniedMessage, "/")

  /**
   * `requireRole(role)`: no session user goes to the login page; an admin
   * passes every gate; anyone else passes exactly the gate of their own
   * role and gets the 403 error view otherwise.
   */
  function RequireRole(user: Option<SessionUser>, role: string): (d: Decision)
    ensures user.None? ==> d == Stop(Redirect(LoginUrl))
    ensures d.Next? <==> user.Some? && (user.value.role == AdminRole || user.value.role == role)
    ensures user.Some? && !d.Next? ==> d == Stop(Denied)
  {
    if user.None? then Stop(Redirect(LoginUrl))
    else if user.value.role == AdminRole then Next
    else if user.value.role == role then Next
    else Stop(Denied)
  }

  /** `isAuthenticated`: passes exactly when there is a session user. */
  function IsAuthenticated(user: Option<SessionUser>): (d: Decision)
    ensures d.Next? <==> user.Some?
    ensures !d.Next? ==> d == Stop(Redirect(LoginUrl))
  {
    if user.Some? then Next else Stop(Redirect(LoginUrl))
  }
}
