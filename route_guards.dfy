/** The two route wrappers: each reads the session's `isAdmin` and `token`
    entries and either renders its children or redirects. */
module RouteGuards {
  import opened Common

  datatype GuardResult = Render | Redirect(to: Route)

  /** `ProtectedAdminRoute`: children only for `isAdmin` exactly "true" with
      a non-empty token; any other session goes to the admin login. */
  function AdminGuard(isAdmin: Option<string>, token: Option<string>): (r: GuardResult)
    ensures r == Render <==> isAdmin == Some("true") && Truthy(token)
    ensures r != Render ==> r == Redirect(AdminLogin)
  {
    var admin := isAdmin == Some("true");
    if !admin || !Truthy(token) then Redirect(AdminLogin) else Render
  }

  /** `ProtectedUserRoute`: children for a non-empty token unless `isAdmin`
      is exactly "true" (a missing flag counts as a user); otherwise home. */
  function UserGuard(isAdmin: Option<string>, token: Option<string>): (r: GuardResult)
    ensures r == Render <==> Truthy(token) && isAdmin != Some("true")
    ensures r != Render ==> r == Redirect(Home)
  {
    var isUser := isAdmin != Some("true");
    if !Truthy(token) || !isUser then Redirect(Home) else Render
  }

  /** No session passes both guards, and every session holding a non-empty
      token passes exactly one of them. */
  lemma GuardsPartitionSessions(isAdmin: Option<string>, token: Option<string>)
    ensures !(AdminGuard(isAdmin, token) == Render && UserGuard(isAdmin, token) == Render)
    ensures Truthy(token) ==> (AdminGuard(isAdmin, token) == Render <==> UserGuard(isAdmin, token) != Render)
  {
  }

  /** Without a token both guards redirect, whatever `isAdmin` holds. */
  lemma NoTokenNoAccess(isAdmin: Option<string>, token: Option<string>)
    requires !Truthy(token)
    ensures AdminGuard(isAdmin, token) == Redirect(AdminLogin)
    ensures UserGuard(isAdmin, token) == Redirect(Home)
  {
  }
}
