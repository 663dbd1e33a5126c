/**
  Role-based navigation: the dashboard index, the three per-role dashboard
  pages (each a guard around its dashboard) and the sign-in page's
  redirect after a user is known.

  Every page compares the stored role text exactly, without case folding.
 */
module Routes {
  import opened Wrappers
  import opened UserTypes

  datatype Route = Auth | SignIn | Dashboard | ResidentDashboard | WatchmanDashboard | CommitteeDashboard

  function Path(r: Route): string {
    match r
    case Auth => "/auth"
    case SignIn => "/auth/sign-in"
    case Dashboard => "/dashboard"
    case ResidentDashboard => "/dashboard/resident"
    case WatchmanDashboard => "/dashboard/watchman"
    case CommitteeDashboard => "/dashboard/committee"
  }

  /** Distinct routes have distinct paths. */
  lemma PathInjective(a: Route, b: Route)
    ensures Path(a) == Path(b) ==> a == b
  {
  }

  function DashboardOf(role: Role): Route {
    match role
    case Resident => ResidentDashboard
    case Watchman => WatchmanDashboard
    case Committee => CommitteeDashboard
  }

  /** The dashboard a role text leads to on the role switches below; any other text leads to sign-in. */
  function RoleTarget(role: string): (r: Route)
    ensures ParseRole(role).Some? ==> r == DashboardOf(ParseRole(role).value)
    ensures ParseRole(role).None? ==> r == SignIn
  {
    if role == "resident" then ResidentDashboard
    else if role == "watchman" then WatchmanDashboard
    else if role == "committee" then CommitteeDashboard
    else SignIn
  }

  // ---------------------------------------------------------------------
  // The dashboard index.

  /** Its effect: with a user, redirect by role; with none, nothing (loading is not consulted). */
  function IndexRedirect(user: Option<User>): (r: Option<Route>)
    ensures user.None? <==> r.None?
    ensures user.Some? ==> r == Some(RoleTarget(user.value.role))
  {
    if user.Some? then Some(RoleTarget(user.value.role)) else None
  }

  datatype IndexView = LoadingText | AccessRestricted | Nothing

  function IndexRender(loading: bool, user: Option<User>): (v: IndexView)
    ensures v == LoadingText <==> loading
    ensures v == AccessRestricted <==> !loading && user.None?
  {
    if loading then LoadingText else if user.None? then AccessRestricted else Nothing
  }

  // ---------------------------------------------------------------------
  // The per-role dashboard pages.

  /**
    The guard's effect on the page for role `own`: nothing while loading;
    no user goes to sign-in; a user with another role goes to that role's
    dashboard, and a role outside the enumeration goes to sign-in.
   */
  function GuardRedirect(own: Role, loading: bool, user: Option<User>): (r: Option<Route>)
    ensures loading ==> r.None?
    ensures !loading && user.None? ==> r == Some(SignIn)
    ensures !loading && user.Some? ==>
      (r.None? <==> user.value.role == RoleName(own)) &&
      (r.Some? ==> r.value == RoleTarget(user.value.role) && r.value != DashboardOf(own))
  {
    if loading then None
    else if user.None? then Some(SignIn)
    else if user.value.role == RoleName(own) then None
    else Some(RoleTarget(user.value.role))
  }

  datatype GuardView = Spinner | OwnDashboard

  /** The dashboard renders only when not loading and the user has the page's own role. */
  function GuardRender(own: Role, loading: bool, user: Option<User>): (v: GuardView)
    ensures v == OwnDashboard <==> !loading && user.Some? && user.value.role == RoleName(own)
  {
    if loading || user.None? || user.value.role != RoleName(own) then Spinner else OwnDashboard
  }

  /** A guard either renders its dashboard or redirects, once loading is over, and never both. */
  lemma GuardRendersOrRedirects(own: Role, user: Option<User>)
    ensures GuardRender(own, false, user) == OwnDashboard <==> GuardRedirect(own, false, user).None?
  {
  }

  /**
    A user whose role is in the enumeration, sent anywhere among the
    dashboards, lands on their own: the index and every guard send them to
    it, and its guard renders it.
   */
  lemma WellTypedUserLands(u: User, own: Role)
    requires WellTyped(u)
    ensures var home := DashboardOf(ParseRole(u.role).value);
      && IndexRedirect(Some(u)) == Some(home)
      && (own != ParseRole(u.role).value ==> GuardRedirect(own, false, Some(u)) == Some(home))
      && GuardRender(ParseRole(u.role).value, false, Some(u)) == OwnDashboard
  {
  }

  /** The resident page: watchmen and committee members are sent to their dashboards, anyone else to sign-in. */
  lemma ResidentPage(loading: bool, user: Option<User>)
    ensures !loading && user.Some? && user.value.role == "watchman" ==> GuardRedirect(Resident, loading, user) == Some(WatchmanDashboard)
    ensures !loading && user.Some? && user.value.role == "committee" ==> GuardRedirect(Resident, loading, user) == Some(CommitteeDashboard)
    ensures !loading && user.Some? && ParseRole(user.value.role).None? ==> GuardRedirect(Resident, loading, user) == Some(SignIn)
    ensures GuardRender(Resident, loading, user) == OwnDashboard <==> !loading && user.Some? && user.value.role == "resident"
  {
  }

  /** The watchman page: residents and committee members are sent to their dashboards, anyone else to sign-in. */
  lemma WatchmanPage(loading: bool, user: Option<User>)
    ensures !loading && user.Some? && user.value.role == "resident" ==> GuardRedirect(Watchman, loading, user) == Some(ResidentDashboard)
    ensures !loading && user.Some? && user.value.role == "committee" ==> GuardRedirect(Watchman, loading, user) == Some(CommitteeDashboard)
    ensures !loading && user.Some? && ParseRole(user.value.role).None? ==> GuardRedirect(Watchman, loading, user) == Some(SignIn)
    ensures GuardRender(Watchman, loading, user) == OwnDashboard <==> !loading && user.Some? && user.value.role == "watchman"
  {
  }

  /** The committee page: watchmen and residents are sent to their dashboards, anyone else to sign-in. */
  lemma CommitteePage(loading: bool, user: Option<User>)
    ensures !loading && user.Some? && user.value.role == "watchman" ==> GuardRedirect(Committee, loading, user) == Some(WatchmanDashboard)
    ensures !loading && user.Some? && user.value.role == "resident" ==> GuardRedirect(Committee, loading, user) == Some(ResidentDashboard)
    ensures !loading && user.Some? && ParseRole(user.value.role).None? ==> GuardRedirect(Committee, loading, user) == Some(SignIn)
    ensures GuardRender(Committee, loading, user) == OwnDashboard <==> !loading && user.Some? && user.value.role == "committee"
  {
  }

  // ---------------------------------------------------------------------
  // The sign-in page.

  /**
    Once a user is known and loading is over: an empty role stays on sign-in,
    the three roles go to their dashboards, and any other role goes to the
    dashboard index.
   */
  function SignInPageRedirect(loading: bool, user: Option<User>): (r: Option<Route>)
    ensures loading || user.None? <==> r.None?
    ensures !loading && user.Some? && user.value.role == "" ==> r == Some(SignIn)
    ensures !loading && user.Some? && ParseRole(user.value.role).Some? ==> r == Some(DashboardOf(ParseRole(user.value.role).value))
    ensures !loading && user.Some? && user.value.role != "" && ParseRole(user.value.role).None? ==> r == Some(Dashboard)
  {
    if loading || user.None? then None
    else if user.value.role == "" then Some(SignIn)
    else if ParseRole(user.value.role).Some? then Some(RoleTarget(user.value.role))
    else Some(Dashboard)
  }

  datatype SignInView = Loader | SignInForm

  function SignInPageRender(loading: bool): (v: SignInView)
    ensures v == Loader <==> loading
  {
    if loading then Loader else SignInForm
  }

  /** The sign-in page's back button. */
  const SignInBack := Auth

  /**
    A signed-in user whose role text is non-empty but outside the
    enumeration (say "Resident") is bounced between the sign-in page and the
    dashboard index indefinitely: each sends them to the other.
   */
  lemma UnknownRoleBounces(u: User)
    requires u.role != "" && !WellTyped(u)
    ensures SignInPageRedirect(false, Some(u)) == Some(Dashboard)
    ensures IndexRedirect(Some(u)) == Some(SignIn)
  {
  }
}
