/** The guard in front of the admin dashboard. */
module ProtectedRoute {
  import opened Js

  /** What the guard renders: the protected page, or a redirect. */
  datatype Decision = RenderChildren | Redirect(to: string, replace: bool)

  const LoginPath := "/admin/login"

  /** `isAuth`: the session's flag, or the session-storage entry
      `admin_authenticated` holding exactly "true". Without either the guard
      replaces the current history entry with the login page. */
  function Access(isAuthenticated: bool, sessionFlag: Option<string>): (d: Decision)
    ensures d.RenderChildren? <==> isAuthenticated || sessionFlag == Some("true")
    ensures d.Redirect? ==> d.to == "/admin/login" && d.replace
  {
    if isAuthenticated || sessionFlag == Some("true") then RenderChildren
    else Redirect(LoginPath, true)
  }
}
