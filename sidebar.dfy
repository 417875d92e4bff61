/**
 * The side navigation: where `goTo` sends the router, and `logout`. A
 * router call is returned as a value; the router itself is not modelled.
 */
module Sidebar {
  import opened Common
  import AuthService
  import RoleGuard

  const DashboardPage := "/dashboard"

  /** One router call: `navigate(commands, { queryParams: { tab } })` or `navigateByUrl(url)`. */
  datatype Navigation = Navigate(commands: seq<string>, tab: Option<string>) | NavigateByUrl(url: string)

  /** Targets that are tabs of the dashboard rather than pages. */
  predicate IsDashboardTab(target: string)
  {
    target == "programs" || target == "packages"
  }

  /**
   * `goTo`: a dashboard tab opens the dashboard on that tab; a target
   * starting with `/` is a URL taken verbatim; anything else is one route
   * segment. Exactly one router call is made.
   */
  function GoTo(target: string): (n: Navigation)
    ensures IsDashboardTab(target) ==> n == Navigate([DashboardPage], Some(target))
    ensures !IsDashboardTab(target) && StartsWith(target, "/") ==> n == NavigateByUrl(target)
    ensures !IsDashboardTab(target) && !StartsWith(target, "/") ==> n == Navigate([target], None)
  {
    if IsDashboardTab(target) then Navigate([DashboardPage], Some(target))
    else if StartsWith(target, "/") then NavigateByUrl(target)
    else Navigate([target], None)
  }

  /** The target a router call was made for. */
  function TargetOf(n: Navigation): string
  {
    match n
    case Navigate(commands, tab) => if tab.Some? then tab.value else if |commands| == 1 then commands[0] else ""
    case NavigateByUrl(url) => url
  }

  /** The target can be read back from the call, so different targets never navigate alike. */
  lemma GoToRecoversTarget(target: string)
    ensures TargetOf(GoTo(target)) == target
  {
  }

  lemma GoToInjective(a: string, b: string)
    ensures GoTo(a) == GoTo(b) ==> a == b
  {
    GoToRecoversTarget(a);
    GoToRecoversTarget(b);
  }

  /** A URL is never sent as a route segment, and a segment never as a URL. */
  lemma GoToKind(target: string)
    ensures GoTo(target).NavigateByUrl? <==> !IsDashboardTab(target) && StartsWith(target, "/")
  {
  }

  /** `logout`: the session is cleared, then the login page is opened. */
  method Logout(auth: AuthService.AuthServiceState) returns (nav: Navigation)
    modifies auth
    ensures auth.storage == old(auth.storage) - AuthService.SessionKeys
    ensures auth.currentUser.None? && !auth.isAuthenticated
    ensures nav == Navigate([RoleGuard.LoginPage], None)
  {
    auth.Logout();
    nav := Navigate([RoleGuard.LoginPage], None);
  }
}
