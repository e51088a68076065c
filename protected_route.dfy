/**
 * The route guard: from the provider's `loading`, whether a user is signed
 * in, the profile's role and whether the route is for administrators only,
 * it decides what is rendered and where the browser is sent.
 */
module ProtectedRoute {

  import opened Wrappers
  import opened Store
  import AuthContext

  /** What the guard renders. */
  datatype View = LoadingView | DeniedView | Children

  /** Where the guard's effect sends the browser. */
  datatype Redirect = Stay | ToLogin | ToDashboard

  /** `requireAdmin` when the route does not say. */
  const DefaultRequireAdmin := false

  /** The role the guard checks: the profile's `role`, absent without a profile. */
  function ProfileRole(profile: Option<UserProfile>): (role: Option<string>)
    ensures profile.None? ==> role.None?
    ensures profile.Some? ==> role == profile.value.user.role
  {
    match profile
    case None => None
    case Some(p) => p.user.role
  }

  /** What is rendered: the loading view while loading or signed out, the denied view for a non-administrator
    * on an administrators' route, the protected content otherwise. */
  function Render(loading: bool, hasUser: bool, role: Option<string>, requireAdmin: bool): (v: View)
    ensures v == LoadingView <==> loading || !hasUser
    ensures v == DeniedView <==> !loading && hasUser && requireAdmin && role != Some("admin")
    ensures v == Children <==> !loading && hasUser && (!requireAdmin || role == Some("admin"))
  {
    if loading || !hasUser then LoadingView
    else if requireAdmin && role != Some("admin") then DeniedView
    else Children
  }

  /** The effect: once loading is over, a signed-out visitor goes to the sign-in page and a non-administrator on
    * an administrators' route goes to the dashboard. */
  function RedirectOf(loading: bool, hasUser: bool, role: Option<string>, requireAdmin: bool): (r: Redirect)
    ensures r == ToLogin <==> !loading && !hasUser
    ensures r == ToDashboard <==> !loading && hasUser && requireAdmin && role != Some("admin")
  {
    if loading then Stay
    else if !hasUser then ToLogin
    else if requireAdmin && role != Some("admin") then ToDashboard
    else Stay
  }

  /** The denied view always comes with the redirect to the dashboard, and the redirect to sign-in only with the
    * loading view; the content is never shown while a redirect is pending. */
  lemma RenderAgreesWithRedirect(loading: bool, hasUser: bool, role: Option<string>, requireAdmin: bool)
    ensures Render(loading, hasUser, role, requireAdmin) == DeniedView <==>
      RedirectOf(loading, hasUser, role, requireAdmin) == ToDashboard
    ensures RedirectOf(loading, hasUser, role, requireAdmin) == ToLogin ==> Render(loading, hasUser, role, requireAdmin) == LoadingView
    ensures Render(loading, hasUser, role, requireAdmin) == Children ==> RedirectOf(loading, hasUser, role, requireAdmin) == Stay
  {
  }

  /** On a route that does not ask for an administrator the role never matters. */
  lemma PlainRouteIgnoresRole(loading: bool, hasUser: bool, role: Option<string>, other: Option<string>)
    ensures Render(loading, hasUser, role, DefaultRequireAdmin) == Render(loading, hasUser, other, DefaultRequireAdmin)
    ensures RedirectOf(loading, hasUser, role, DefaultRequireAdmin) == RedirectOf(loading, hasUser, other, DefaultRequireAdmin)
    ensures Render(loading, hasUser, role, DefaultRequireAdmin) != DeniedView
  {
  }

  /** After `signOut` every protected route shows the loading view and sends the visitor to sign in. */
  method GuardAfterSignOut(auth: AuthContext.AuthState, requireAdmin: bool) returns (v: View, r: Redirect)
    modifies auth
    ensures v == LoadingView && r == ToLogin
  {
    auth.SignOut();
    v := Render(auth.loading, auth.user.Some?, ProfileRole(auth.userProfile), requireAdmin);
    r := RedirectOf(auth.loading, auth.user.Some?, ProfileRole(auth.userProfile), requireAdmin);
  }

  /** After a successful `signIn`, an administrators' route shows its content exactly when the freshly loaded
    * profile says 'admin'. */
  method GuardAfterSignIn(auth: AuthContext.AuthState, employeeId: string, password: string, users: seq<UserRow>,
                          companies: seq<Named>, hash: string -> string, now: int) returns (v: View)
    requires AuthContext.CheckSignIn(employeeId, password, users, hash).Ok?
    modifies auth
    ensures v == Children <==>
      ProfileRole(AuthContext.FetchUserProfile(users, companies, AuthContext.CheckSignIn(employeeId, password, users, hash).value.id)) == Some("admin")
  {
    var landing := auth.SignIn(employeeId, password, users, companies, hash, now);
    v := Render(auth.loading, auth.user.Some?, ProfileRole(auth.userProfile), true);
  }
}
