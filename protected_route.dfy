/**
 * The route guard of `routes/ProtectedRoute.jsx`: a visitor who is not
 * authenticated, or for whom no user is stored, is sent to the login page;
 * a user without the route's required role (when it names one) is sent
 * home; everyone else sees the page.
 */
module ProtectedRoute {
  import opened Common
  import opened AuthSlice

  datatype Decision = ToLogin | ToHome | Render

  /** The guard's decision from the auth slice's `user` and
      `isAuthenticated` and the route's `requiredRole`. */
  function Guard(isAuthenticated: bool, user: Option<AuthUser>, requiredRole: Option<string>): (d: Decision)
    ensures d == ToLogin <==> !isAuthenticated || user.None?
    ensures d == ToHome <==> isAuthenticated && user.Some? && Truthy(requiredRole) && user.value.role != requiredRole.value
    ensures d == Render <==> isAuthenticated && user.Some? && (!Truthy(requiredRole) || user.value.role == requiredRole.value)
  {
    if !isAuthenticated || user.None? then ToLogin
    else if Truthy(requiredRole) && user.value.role != requiredRole.value then ToHome
    else Render
  }

  /** The guard applied to a state of the auth slice. */
  function GuardOf(v: AuthView, requiredRole: Option<string>): Decision
  {
    Guard(v.isAuthenticated, v.user, requiredRole)
  }

  /** A route that names no role (or an empty one) lets every signed-in user in. */
  lemma NoRoleAdmitsEveryone(v: AuthView, requiredRole: Option<string>)
    requires v.isAuthenticated && v.user.Some?
    requires !Truthy(requiredRole)
    ensures GuardOf(v, requiredRole) == Render
  {
  }

  /** A user is let into an admin route exactly when its role is `admin`. */
  lemma AdminRouteNeedsAdmin(v: AuthView)
    requires v.isAuthenticated && v.user.Some?
    ensures GuardOf(v, Some("admin")) == Render <==> v.user.value.role == "admin"
    ensures GuardOf(v, Some("admin")) != Render ==> GuardOf(v, Some("admin")) == ToHome
  {
  }

  /** After a logout, whether the server call succeeded or failed, every
      guarded route sends the visitor to the login page. */
  lemma LoggedOutGoesToLogin(error: Option<string>, requiredRole: Option<string>)
    ensures GuardOf(AuthView(None, false, false, error), requiredRole) == ToLogin
  {
  }

  /** A session check whose answer carries no `user` marks the visitor
      authenticated, yet the guard still sends it to the login page. */
  lemma SessionWithoutUserGoesToLogin(v: AuthView, requiredRole: Option<string>)
    ensures GuardOf(v.(loading := false, user := None, isAuthenticated := true), requiredRole) == ToLogin
  {
  }
}
