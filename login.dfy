/** The login page: the role chosen for the form, the demo credentials of a role, and the
    validation and routing that run when the simulated sign-in completes. */
module Login {
  import opened Wrappers
  import opened UserRoles
  import Sidebar

  /** The role the form starts with: the one preselected by the previous page, or student. */
  function InitialRole(preselected: Option<Role>): (r: Role)
    ensures preselected.Some? ==> r == preselected.value
    ensures preselected.None? ==> r == Student
  {
    preselected.GetOr(Student)
  }

  /** The page a signed-in user is sent to. */
  function DashboardRoute(role: Role): (r: string)
    ensures r == "/" + RoleName(role) + "/dashboard"
  {
    if role == Student then
      assert "/" + "student" + "/dashboard" == "/student/dashboard";
      "/student/dashboard"
    else if role == Faculty then
      assert "/" + "faculty" + "/dashboard" == "/faculty/dashboard";
      "/faculty/dashboard"
    else
      assert "/" + "admin" + "/dashboard" == "/admin/dashboard";
      "/admin/dashboard"
  }

  /** What the completed sign-in does: the "Please fill in all fields" error toast with no
      navigation, or the success toast and a navigation to a route. */
  datatype Outcome = Rejected | Accepted(route: string)

  /** The timer's body: `!email || !password` is rejected, anything else is accepted. */
  function Validate(email: string, password: string, role: Role): (r: Outcome)
    ensures r == Rejected <==> email == "" || password == ""
    ensures r.Accepted? ==> r.route == DashboardRoute(role)
  {
    if email == "" || password == "" then Rejected else Accepted(DashboardRoute(role))
  }

  /** A user is sent to the page the sidebar offers them as their dashboard. */
  lemma RouteIsSidebarDashboard(role: Role)
    ensures DashboardRoute(role) == Sidebar.RoleMenu(role)[0].href
  {
    Sidebar.MenuStartsWithDashboard(role);
  }

  /** `getDemoCredentials()`. */
  datatype Credentials = Credentials(email: string, password: string)

  /** The demo account of each role. */
  function DemoCredentials(role: Role): (r: Credentials)
    ensures r.email == RoleName(role) + "@example.com" && r.password == "password"
  {
    match role
    case Student =>
      assert "student" + "@example.com" == "student@example.com";
      Credentials("student@example.com", "password")
    case Faculty =>
      assert "faculty" + "@example.com" == "faculty@example.com";
      Credentials("faculty@example.com", "password")
    case Admin =>
      assert "admin" + "@example.com" == "admin@example.com";
      Credentials("admin@example.com", "password")
  }

  /** The demo credentials of a role always pass validation and lead to that role's dashboard. */
  lemma DemoCredentialsAccepted(role: Role)
    ensures Validate(DemoCredentials(role).email, DemoCredentials(role).password, role) == Accepted(DashboardRoute(role))
  {
  }

  /** The values a submit's timer captured when it was set. */
  datatype Submission = Submission(email: string, password: string, role: Role)

  /** The form's state cells. `outcomes` records, in order, what each completed sign-in did
      (its toast and navigation); `pending` holds, oldest first, the submissions whose timers
      have not fired yet. */
  class LoginForm {
    var role: Role
    var email: string
    var password: string
    var isLoading: bool
    var pending: seq<Submission>
    var outcomes: seq<Outcome>

    /** The page as it mounts. */
    constructor (preselected: Option<Role>)
      ensures role == InitialRole(preselected)
      ensures email == "" && password == "" && !isLoading && pending == [] && outcomes == []
    {
      role := InitialRole(preselected);
      email := "";
      password := "";
      isLoading := false;
      pending := [];
      outcomes := [];
    }

    /** The role selector's `onValueChange`. */
    method SelectRole(r: Role)
      modifies this
      ensures role == r
      ensures email == old(email) && password == old(password) && isLoading == old(isLoading)
      ensures pending == old(pending) && outcomes == old(outcomes)
    {
      role := r;
    }

    /** Typing into the e-mail and password fields. */
    method SetFields(newEmail: string, newPassword: string)
      modifies this
      ensures email == newEmail && password == newPassword
      ensures role == old(role) && isLoading == old(isLoading) && pending == old(pending) && outcomes == old(outcomes)
    {
      email := newEmail;
      password := newPassword;
    }

    /** `fillDemoCredentials()`: the fields get the demo account of the selected role. */
    method FillDemoCredentials()
      modifies this
      ensures email == DemoCredentials(role).email && password == DemoCredentials(role).password
      ensures role == old(role) && isLoading == old(isLoading) && pending == old(pending) && outcomes == old(outcomes)
    {
      var demo := DemoCredentials(role);
      email := demo.email;
      password := demo.password;
    }

    /** `handleLogin`: loading is shown and a timer is set over the current values. */
    method HandleLogin()
      modifies this
      ensures isLoading
      ensures pending == old(pending) + [Submission(email, password, role)]
      ensures role == old(role) && email == old(email) && password == old(password) && outcomes == old(outcomes)
    {
      isLoading := true;
      pending := pending + [Submission(email, password, role)];
    }

    /** The oldest timer fires: loading stops and the captured values are validated. */
    method CompleteLogin()
      requires pending != []
      modifies this
      ensures !isLoading
      ensures outcomes == old(outcomes) + [Validate(old(pending)[0].email, old(pending)[0].password, old(pending)[0].role)]
      ensures pending == old(pending)[1..]
      ensures role == old(role) && email == old(email) && password == old(password)
    {
      var s := pending[0];
      isLoading := false;
      outcomes := outcomes + [Validate(s.email, s.password, s.role)];
      pending := pending[1..];
    }
  }

  /** Filling in the demo account and signing in always lands on the selected role's dashboard. */
  method DemoSignIn(form: LoginForm)
    requires form.pending == []
    modifies form
    ensures form.outcomes == old(form.outcomes) + [Accepted(DashboardRoute(old(form.role)))]
    ensures !form.isLoading && form.pending == []
  {
    form.FillDemoCredentials();
    form.HandleLogin();
    form.CompleteLogin();
    DemoCredentialsAccepted(form.role);
  }

  /** Submitting with an empty field produces the error and no navigation. */
  method EmptySignIn(form: LoginForm)
    requires form.pending == [] && (form.email == "" || form.password == "")
    modifies form
    ensures form.outcomes == old(form.outcomes) + [Rejected]
    ensures !form.isLoading && form.pending == []
  {
    form.HandleLogin();
    form.CompleteLogin();
  }
}
