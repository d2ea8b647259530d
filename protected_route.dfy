/** The route guard (src/components/auth/ProtectedRoute.tsx) as a function of the auth
    store's state: where its effect navigates and what it renders. */
module ProtectedRoute {
  import opened Wrappers
  import opened Types

  const DefaultRedirect: string := "/login"
  const UnauthorizedPage: string := "/unauthorized"

  datatype View = Spinner | Nothing | Children

  datatype Decision = Decision(navigate: Option<string>, view: View)

  /** The user admitted by the guard: signed in, and holding the required role if any. */
  predicate Admits(user: Option<User>, isAuthenticated: bool, requiredRole: Option<Role>) {
    isAuthenticated && user.Some? && (requiredRole.None? || user.value.role == requiredRole.value)
  }

  /** The effect's navigation and the rendered output, in the order the component tests
      its conditions. `redirectTo` defaults to the login page only when it is absent. */
  function Guard(user: Option<User>, isAuthenticated: bool, isLoading: bool,
                 requiredRole: Option<Role>, redirectTo: Option<string>): (d: Decision)
    ensures d.view == Children <==> !isLoading && Admits(user, isAuthenticated, requiredRole)
    ensures d.view == Spinner <==> isLoading
    ensures d.view == Children ==> d.navigate == None
    ensures isLoading ==> d.navigate == None
    ensures !isLoading && !(isAuthenticated && user.Some?) ==>
      d.navigate == Some(redirectTo.GetOr(DefaultRedirect))
    ensures !isLoading && isAuthenticated && user.Some? && !Admits(user, isAuthenticated, requiredRole) ==>
      d.navigate == Some(UnauthorizedPage)
  {
    if isLoading then Decision(None, Spinner)
    else if !isAuthenticated || user.None? then Decision(Some(redirectTo.GetOr(DefaultRedirect)), Nothing)
    else if requiredRole.Some? && user.value.role != requiredRole.value then Decision(Some(UnauthorizedPage), Nothing)
    else Decision(None, Children)
  }

  /** A guard without a required role admits every signed-in user, whatever it would do for
      one with a role requirement. */
  lemma NoRoleAdmitsAnyUser(user: User, role: Role, redirectTo: Option<string>)
    ensures Guard(Some(user), true, false, None, redirectTo).view == Children
    ensures Guard(Some(user), true, false, Some(role), redirectTo).view == Children <==> user.role == role
  {
  }

  /** A signed-out visitor of a guarded page without its own target goes to the login page,
      and never to the unauthorized page. */
  lemma SignedOutGoesToLogin(isAuthenticated: bool, requiredRole: Option<Role>)
    ensures Guard(None, isAuthenticated, false, requiredRole, None).navigate == Some("/login")
  {
  }
}
