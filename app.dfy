/** The top-level router of src/App.tsx: the session role, the post-login
    redirect, and the `<Routes>` table that decides, per path and role, whether
    a view renders or the user is sent to `/login`. */
module App {
  import opened Wrappers
  import opened AuthTypes
  import Login

  const HomePath := "/"
  const LoginPath := "/login"
  const SignupPath := "/signup"
  const DashboardPath := "/dashboard"
  const CoursesPath := "/admin/courses"
  const AnalyticsPath := "/admin/analytics"

  /** The paths of the six `<Route>` elements. */
  const RoutePaths: set<string> := {HomePath, LoginPath, SignupPath, DashboardPath, CoursesPath, AnalyticsPath}

  /** The views the router can render; the dashboard receives a role to display. */
  datatype View = Home | LoginView | SignupView | Dashboard(displayRole: Role) | CourseManager | Analytics

  /** What the router does for a location: render a view, redirect (`<Navigate to=...>`), or match nothing. */
  datatype Outcome = Render(view: View) | Redirect(target: string) | NoMatch

  /** `role || "Learner"`: the role shown on the dashboard. */
  function DisplayRole(role: Option<Role>): Role {
    if role.Some? then role.value else Learner
  }

  /** The route decision. Only the two admin paths are guarded, each by one
      role; a guard that fails redirects to `/login`, so a protected view never
      renders for any other role, signed in or not; a path outside the table
      matches nothing, as there is no fallback route. */
  function Resolve(path: string, role: Option<Role>): (o: Outcome)
    ensures o == Render(CourseManager) <==> path == CoursesPath && role == Some(Instructor)
    ensures o == Render(Analytics) <==> path == AnalyticsPath && role == Some(Admin)
    ensures o.Redirect? <==>
              (path == CoursesPath && role != Some(Instructor)) || (path == AnalyticsPath && role != Some(Admin))
    ensures o.Redirect? ==> o.target == LoginPath
    ensures o == NoMatch <==> path !in RoutePaths
  {
    if path == HomePath then Render(Home)
    else if path == LoginPath then Render(LoginView)
    else if path == SignupPath then Render(SignupView)
    else if path == DashboardPath then Render(Dashboard(DisplayRole(role)))
    else if path == CoursesPath then (if role == Some(Instructor) then Render(CourseManager) else Redirect(LoginPath))
    else if path == AnalyticsPath then (if role == Some(Admin) then Render(Analytics) else Redirect(LoginPath))
    else NoMatch
  }

  /** The landing path `handleLogin` navigates to for each role. */
  function LandingPath(r: Role): string {
    match r
    case Learner => DashboardPath
    case Instructor => CoursesPath
    case Admin => AnalyticsPath
  }

  /** After signing in, the landing path renders the view meant for the new role: no login lands on a redirect. */
  lemma LandingRenders(r: Role)
    ensures Resolve(LandingPath(r), Some(r)) ==
              Render(match r
                     case Learner => Dashboard(Learner)
                     case Instructor => CourseManager
                     case Admin => Analytics)
  {
  }

  /** `/`, `/login`, `/signup` and `/dashboard` render for every role, and the
      dashboard never receives a missing role. */
  lemma UnguardedPaths(role: Option<Role>)
    ensures Resolve(HomePath, role) == Render(Home)
    ensures Resolve(LoginPath, role) == Render(LoginView)
    ensures Resolve(SignupPath, role) == Render(SignupView)
    ensures Resolve(DashboardPath, role) == Render(Dashboard(if role.Some? then role.value else Learner))
  {
  }

  /** The session state of `App`: the role, and the navigations issued so far. */
  class Router {
    var role: Option<Role>
    ghost var navigations: seq<string>

    constructor ()
      ensures role == None && navigations == []
    {
      role := None;
      navigations := [];
    }

    /** `handleLogin(r)`: the role becomes `r`; for a role, exactly one
        navigation, to that role's landing path; for `null`, none. */
    method HandleLogin(r: Option<Role>)
      modifies this
      ensures role == r
      ensures navigations == old(navigations) + (if r.Some? then [LandingPath(r.value)] else [])
    {
      role := r;
      if r == Some(Learner) { navigations := navigations + [DashboardPath]; }
      if r == Some(Instructor) { navigations := navigations + [CoursesPath]; }
      if r == Some(Admin) { navigations := navigations + [AnalyticsPath]; }
    }

    /** The login view's `goSignup`: navigate to `/signup`. */
    method GoSignup()
      modifies this
      ensures role == old(role) && navigations == old(navigations) + [SignupPath]
    {
      navigations := navigations + [SignupPath];
    }

    /** The sign-up view's `goLogin`: it navigates to `/dashboard`, not to `/login`. */
    method GoLogin()
      modifies this
      ensures role == old(role) && navigations == old(navigations) + [DashboardPath]
    {
      navigations := navigations + [DashboardPath];
    }

    /** Submitting the login view with `onLogin={handleLogin}`: a successful
        sign-in sets the role and navigates to its landing path; anything else
        leaves the router as it was. */
    method SubmitLogin(form: Login.LoginForm, response: Login.LoginResponse)
      modifies this, form`errors
      ensures var signedIn := Login.ValidationErrors(old(form.form)) == map[] && response.Authenticated?;
              && role == (if signedIn then Some(response.role) else old(role))
              && navigations == old(navigations) + (if signedIn then [LandingPath(response.role)] else [])
      ensures form.form == old(form.form)
      ensures form.errors == if Login.ValidationErrors(old(form.form)) != map[] then Login.ValidationErrors(old(form.form))
                             else if response.Authenticated? then map[]
                             else map[Login.EmailAddress := Some(Login.FailureMessage(response))]
    {
      var requested, signedIn := form.HandleSubmit(response);
      if signedIn.Some? {
        HandleLogin(signedIn);
      }
    }
  }

  /** An instructor signs in, lands on the course manager, and is still sent
      to `/login` from the analytics page: a cross-role denial, not an
      unauthenticated one. */
  method InstructorScenario()
  {
    var router := new Router();
    assert Resolve(CoursesPath, router.role) == Redirect(LoginPath);
    assert Resolve(AnalyticsPath, router.role) == Redirect(LoginPath);
    router.HandleLogin(Some(Instructor));
    assert router.role == Some(Instructor);
    assert router.navigations == [CoursesPath];
    assert Resolve(CoursesPath, router.role) == Render(CourseManager);
    assert Resolve(AnalyticsPath, router.role) == Redirect(LoginPath);
  }
}
