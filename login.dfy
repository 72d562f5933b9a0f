/** The login view's redirect by role code, and where it lands. */
module Login {
  import opened Wrappers
  import opened Models
  import opened Mixins
  import opened Endpoints

  datatype LoginOutcome = ShowForm | RedirectTo(target: Endpoint)

  /** The dashboard a user type is sent to: '1' and '2' by name, anything else to the employee's. */
  function DashboardFor(userType: string): (e: Endpoint)
    ensures e == SuperAdminDashboard <==> userType == SuperAdminCode
    ensures e == ManagerDashboard <==> userType == ManagerCode
    ensures e == EmployeeDashboard <==> userType != SuperAdminCode && userType != ManagerCode
  {
    if userType == SuperAdminCode then SuperAdminDashboard
    else if userType == ManagerCode then ManagerDashboard
    else EmployeeDashboard
  }

  /**
   * A login POST: `authenticated` is what authenticate() returned for a
   * valid form (None for a GET, an invalid form or wrong credentials).
   */
  function LoginView(authenticated: Option<User>): (r: LoginOutcome)
    ensures authenticated.None? <==> r == ShowForm
    ensures authenticated.Some? ==> r.target == DashboardFor(authenticated.value.userType)
  {
    match authenticated
    case None => ShowForm
    case Some(u) => RedirectTo(DashboardFor(u.userType))
  }

  /**
   * The dashboard a user is sent to admits that user exactly when the
   * user_type is one of the three codes; with any other code the employee
   * dashboard refuses with NoAccess.
   */
  lemma LoginLandsOnOwnDashboard(q: Request)
    requires IsAuthenticated(q.store, q.requester)
    ensures var t := q.store.users[q.requester.id].userType;
      Admits(DashboardFor(t), q) <==> t in UserTypeChoices
    ensures var t := q.store.users[q.requester.id].userType;
      t !in UserTypeChoices ==> FirstFailure(Guards(DashboardFor(t)), q) == Denied(NoAccess)
  {
    var t := q.store.users[q.requester.id].userType;
    var e := DashboardFor(t);
    assert Guards(e) == Base(e) + [];
    BaseVerdict(e, [], q);
    assert FirstFailure([], q) == Pass;
  }
}
