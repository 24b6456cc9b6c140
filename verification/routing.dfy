/**
 * The client's route table and guards (client/src/App.jsx). A location is
 * its sequence of path segments ("/user/jobs/42" is ["user", "jobs", "42"]);
 * the outcome of a location is the page shown, the loading placeholder, or a
 * redirect.
 */
module Routing {
  import opened Wrappers
  import opened Text
  import AuthSession

  datatype Page =
    | LoginPage | RegisterPage
    | AdminJobsPage | AdminApplicationsPage
    | UserJobsPage | UserApplicationsPage
    | JobDetailsPage(jobId: string) | ApplyFormPage(jobId: string)

  datatype View = Placeholder | Redirect(to: seq<string>) | Show(page: Page)

  /** What the guards read from the session context. */
  datatype Guard = Guard(loading: bool, isAuthenticated: bool, role: Option<string>)

  const AdminRoles: seq<string> := ["admin"]
  const UserRoles: seq<string> := ["user", "admin"]

  const LoginPath: seq<string> := ["login"]
  const AdminHome: seq<string> := ["admin", "jobs"]
  const UserHome: seq<string> := ["user", "jobs"]

  /** `ProtectedRoute`: placeholder while loading, login when signed out, else the child. */
  function ProtectedRoute(g: Guard, child: View): (v: View)
    ensures g.loading ==> v == Placeholder
    ensures !g.loading && !g.isAuthenticated ==> v == Redirect(LoginPath)
    ensures !g.loading && g.isAuthenticated ==> v == child
  {
    if g.loading then Placeholder
    else if !g.isAuthenticated then Redirect(LoginPath)
    else child
  }

  /**
   * `RoleRoute`: the child when the role is truthy and allowed; otherwise the
   * role's home ("admin" and "user"), or login for any other role.
   */
  function RoleRoute(role: Option<string>, allowedRoles: seq<string>, child: View): (v: View)
    ensures Truthy(role) && role.value in allowedRoles ==> v == child
    ensures !(Truthy(role) && role.value in allowedRoles) ==>
              v == Redirect(if role == Some("admin") then AdminHome
                            else if role == Some("user") then UserHome
                            else LoginPath)
  {
    if !Truthy(role) || role.value !in allowedRoles then
      if role == Some("admin") then Redirect(AdminHome)
      else if role == Some("user") then Redirect(UserHome)
      else Redirect(LoginPath)
    else child
  }

  /** A guarded entry of the table: `ProtectedRoute` around `RoleRoute` around the page. */
  function Guarded(g: Guard, allowedRoles: seq<string>, page: Page): View {
    ProtectedRoute(g, RoleRoute(g.role, allowedRoles, Show(page)))
  }

  /**
   * The location as the router compares it with the table: routes are not
   * `caseSensitive`, so each segment is compared lower-cased.
   */
  function Lowered(path: seq<string>): (r: seq<string>)
    ensures |r| == |path|
    ensures forall i :: 0 <= i < |path| ==> r[i] == ToLower(path[i])
  {
    seq(|path|, i requires 0 <= i < |path| => ToLower(path[i]))
  }

  /**
   * The `<Routes>` table, with `*` sending every other location to login.
   * Literal segments match in any letter case; the `:id` segment is handed
   * to the page as typed.
   */
  function Resolve(path: seq<string>, g: Guard): (v: View)
    ensures Lowered(path) == ["login"] ==> v == Show(LoginPage)
    ensures Lowered(path) == ["register"] ==> v == Show(RegisterPage)
  {
    var p := Lowered(path);
    if p == ["login"] then Show(LoginPage)
    else if p == ["register"] then Show(RegisterPage)
    else if p == ["admin", "jobs"] then Guarded(g, AdminRoles, AdminJobsPage)
    else if p == ["admin", "applications"] then Guarded(g, AdminRoles, AdminApplicationsPage)
    else if p == ["user", "jobs"] then Guarded(g, UserRoles, UserJobsPage)
    else if p == ["user", "applications"] then Guarded(g, UserRoles, UserApplicationsPage)
    else if |p| == 3 && p[0] == "user" && p[1] == "jobs" then
      Guarded(g, UserRoles, JobDetailsPage(path[2]))
    else if |p| == 4 && p[0] == "user" && p[1] == "jobs" && p[3] == "apply" then
      Guarded(g, UserRoles, ApplyFormPage(path[2]))
    else Redirect(LoginPath)
  }

  /** The locations that carry a page behind the two guards. */
  predicate IsGuardedPath(path: seq<string>) {
    var p := Lowered(path);
    || p == ["admin", "jobs"] || p == ["admin", "applications"]
    || p == ["user", "jobs"] || p == ["user", "applications"]
    || (|p| == 3 && p[0] == "user" && p[1] == "jobs")
    || (|p| == 4 && p[0] == "user" && p[1] == "jobs" && p[3] == "apply")
  }

  predicate IsAdminPath(path: seq<string>) {
    |path| >= 1 && ToLower(path[0]) == "admin"
  }

  /** The locations the redirects name are already lower-case. */
  lemma RedirectTargetsAreLower()
    ensures Lowered(LoginPath) == LoginPath
    ensures Lowered(AdminHome) == AdminHome
    ensures Lowered(UserHome) == UserHome
  {
    ToLowerKeepsLower("login");
    ToLowerKeepsLower("admin");
    ToLowerKeepsLower("user");
    ToLowerKeepsLower("jobs");
  }

  /**
   * Letter case does not change which page a location reaches; a page that
   * takes a job id gets the id as typed.
   */
  lemma ResolveIgnoresCase(path: seq<string>, path': seq<string>, g: Guard)
    requires Lowered(path) == Lowered(path')
    ensures Resolve(path, g).Show? <==> Resolve(path', g).Show?
    ensures Resolve(path, g).Show? && !Resolve(path, g).page.JobDetailsPage? && !Resolve(path, g).page.ApplyFormPage? ==>
              Resolve(path, g) == Resolve(path', g)
    ensures Resolve(path, g).Redirect? ==> Resolve(path, g) == Resolve(path', g)
  {
  }

  /** "/Admin/Jobs" reaches the admin job page like "/admin/jobs". */
  lemma MixedCaseAdminLocation(g: Guard)
    requires !g.loading && g.isAuthenticated && g.role == Some("admin")
    ensures Resolve(["Admin", "Jobs"], g) == Show(AdminJobsPage)
  {
    var admin, jobs := ToLower("Admin"), ToLower("Jobs");
    assert admin[0] == ToLowerChar('A') == 'a';
    assert jobs[0] == ToLowerChar('J') == 'j';
    assert admin == "admin" && jobs == "jobs";
    assert Lowered(["Admin", "Jobs"]) == ["admin", "jobs"];
  }

  /** Every location the table does not list redirects to login. */
  lemma UnmatchedGoesToLogin(path: seq<string>, g: Guard)
    requires !IsGuardedPath(path) && Lowered(path) != ["login"] && Lowered(path) != ["register"]
    ensures Resolve(path, g) == Redirect(LoginPath)
  {
  }

  /** While the session is loading, every guarded location shows the placeholder. */
  lemma LoadingShowsPlaceholder(path: seq<string>, g: Guard)
    requires g.loading && IsGuardedPath(path)
    ensures Resolve(path, g) == Placeholder
  {
  }

  /** Signed out (and not loading), every guarded location redirects to login. */
  lemma SignedOutGoesToLogin(path: seq<string>, g: Guard)
    requires !g.loading && !g.isAuthenticated && IsGuardedPath(path)
    ensures Resolve(path, g) == Redirect(LoginPath)
  {
  }

  /**
   * The page a guarded location carries, read off the location's shape: four
   * segments are the apply form, three the job details, and two name the
   * area (/admin or /user) and the list (jobs or applications).
   */
  function PageAt(path: seq<string>): (page: Page)
    requires IsGuardedPath(path)
    ensures page.JobDetailsPage? || page.ApplyFormPage? ==> |path| >= 3 && page.jobId == path[2]
    ensures IsAdminPath(path) <==> page == AdminJobsPage || page == AdminApplicationsPage
  {
    if |path| == 4 then ApplyFormPage(path[2])
    else if |path| == 3 then JobDetailsPage(path[2])
    else if ToLower(path[1]) == "applications" then
      if IsAdminPath(path) then AdminApplicationsPage else UserApplicationsPage
    else
      if IsAdminPath(path) then AdminJobsPage else UserJobsPage
  }

  /** The roles the entry at a guarded location admits. */
  function RolesAt(path: seq<string>): seq<string> {
    if IsAdminPath(path) then AdminRoles else UserRoles
  }

  /** Once past both guards, each guarded location shows its own page. */
  lemma GuardedLocationShowsItsPage(path: seq<string>, g: Guard)
    requires !g.loading && g.isAuthenticated && IsGuardedPath(path)
    requires Truthy(g.role) && g.role.value in RolesAt(path)
    ensures Resolve(path, g) == Show(PageAt(path))
  {
  }

  /** A signed-in admin reaches every guarded location, each showing its own page. */
  lemma AdminReachesEverything(path: seq<string>, g: Guard)
    requires !g.loading && g.isAuthenticated && g.role == Some("admin") && IsGuardedPath(path)
    ensures Resolve(path, g).Show?
    ensures Resolve(path, g) == Show(PageAt(path))
  {
    GuardedLocationShowsItsPage(path, g);
  }

  /**
   * A signed-in user reaches exactly the guarded locations outside /admin;
   * each /admin location sends them to their own home.
   */
  lemma UserKeptOutOfAdmin(path: seq<string>, g: Guard)
    requires !g.loading && g.isAuthenticated && g.role == Some("user") && IsGuardedPath(path)
    ensures Resolve(path, g).Show? <==> !IsAdminPath(path)
    ensures IsAdminPath(path) ==> Resolve(path, g) == Redirect(UserHome)
    ensures !IsAdminPath(path) ==> Resolve(path, g) == Show(PageAt(path))
  {
    if !IsAdminPath(path) {
      GuardedLocationShowsItsPage(path, g);
    }
  }

  /** Every redirect lands on a location that shows a page: no redirect chains or loops. */
  lemma RedirectsSettle(path: seq<string>, g: Guard)
    requires !g.loading
    ensures Resolve(path, g).Redirect? ==> Resolve(Resolve(path, g).to, g).Show?
  {
    RedirectTargetsAreLower();
  }

  /** The guard state the context hands to the routes. */
  function GuardOf(state: AuthSession.AuthState): (g: Guard)
    ensures g.isAuthenticated <==> AuthSession.IsAuthenticated(state)
    ensures g.loading == state.loading && g.role == state.role
  {
    Guard(state.loading, AuthSession.IsAuthenticated(state), state.role)
  }

  /** Right after logout, every guarded location redirects to login. */
  lemma LogoutLocksGuardedPages(s: AuthSession.Session, path: seq<string>)
    requires !s.state.loading && IsGuardedPath(path)
    ensures Resolve(path, GuardOf(AuthSession.Logout(s).state)) == Redirect(LoginPath)
  {
  }
}
