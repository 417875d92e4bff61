/**
 * The route guard that admits a logged-in user whose role matches the
 * route's `role` data, and otherwise names the page to navigate to.
 */
module RoleGuard {
  import opened Common
  import opened AuthService

  const LoginPage := "/auth/login"
  const UnauthorizedPage := "/unauthorized"

  /** The guard's answer, and the navigation it triggers on the way (if any). */
  datatype GuardResult = GuardResult(allow: bool, navigate: Option<string>)

  /**
   * `roleGuard`: no user goes to the login page whatever the route wants; a
   * user whose role differs from a given required role goes to the
   * unauthorized page; everybody else passes without navigation.
   */
  function RoleGuard(user: Option<User>, requiredRole: Option<string>): (r: GuardResult)
    ensures user.None? ==> r == GuardResult(false, Some(LoginPage))
    ensures user.Some? && PresentText(requiredRole) && user.value.role != requiredRole.value ==>
      r == GuardResult(false, Some(UnauthorizedPage))
    ensures r.allow <==> user.Some? && (!PresentText(requiredRole) || user.value.role == requiredRole.value)
    ensures r.allow <==> r.navigate.None?
  {
    if user.None? then GuardResult(false, Some(LoginPage))
    else if PresentText(requiredRole) && user.value.role != requiredRole.value then
      GuardResult(false, Some(UnauthorizedPage))
    else GuardResult(true, None)
  }

  /** A route for trainers admits exactly the sessions `isTrainer` holds for. */
  lemma TrainerRouteAdmitsTrainers(s: AuthServiceState)
    ensures RoleGuard(s.currentUser, Some(TrainerRole)).allow <==> s.IsTrainer()
  {
  }
}
