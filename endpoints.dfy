/**
 * The guard chain each view of app/views.py declares, in the order its class
 * lists its mixins (or its decorators are stacked).  The chat views, whose
 * guards are not part of this model, are left out.
 */
module Endpoints {
  import opened Wrappers
  import opened Models
  import opened Mixins

  datatype Endpoint =
    | Main | LoginPage
    // super-admin
    | SuperAdminDashboard | SuperAdminUserList | SuperAdminUserCreate | SuperAdminSelectManager
    | SuperAdminUserDetail | SuperAdminUserUpdate | SuperAdminUserDelete
    | SuperAdminProfileList | SuperAdminProfileDetail | SuperAdminProfileUpdate
    | SuperAdminActivityList | SuperAdminCreateBulkActivity | SuperAdminActivityDetail
    | SuperAdminActivityUpdate | SuperAdminActivityDelete
    | SuperAdminTicketList | SuperAdminTicketCreateOrRedirect
    // manager
    | ManagerDashboard | ManagerUserList | ManagerUserDetail
    | ManagerMyActivityList | ManagerMyActivityDetail | ManagerMyActivityUpdate
    | ManagerActivityList | ManagerCreateBulkActivity | ManagerActivityDetail
    | ManagerTicketList | ManagerTicketCreateOrRedirect
    // employee
    | EmployeeDashboard | EmployeeProfileCreate | EmployeeProfileDetail | EmployeeProfileUpdate
    | EmployeeActivityList | EmployeeActivityDetail | EmployeeActivityUpdate
    | EmployeeTicketList | EmployeeTicketCreateOrRedirect

  /** The views meant for everyone: the landing redirect and the login form. */
  predicate Public(e: Endpoint)
  {
    e == Main || e == LoginPage
  }

  /** The role code a protected view is meant for. */
  function Tier(e: Endpoint): string
  {
    match e
    case Main | LoginPage => ""
    case SuperAdminDashboard | SuperAdminUserList | SuperAdminUserCreate | SuperAdminSelectManager
      | SuperAdminUserDetail | SuperAdminUserUpdate | SuperAdminUserDelete
      | SuperAdminProfileList | SuperAdminProfileDetail | SuperAdminProfileUpdate
      | SuperAdminActivityList | SuperAdminCreateBulkActivity | SuperAdminActivityDetail
      | SuperAdminActivityUpdate | SuperAdminActivityDelete
      | SuperAdminTicketList | SuperAdminTicketCreateOrRedirect => SuperAdminCode
    case ManagerDashboard | ManagerUserList | ManagerUserDetail
      | ManagerMyActivityList | ManagerMyActivityDetail | ManagerMyActivityUpdate
      | ManagerActivityList | ManagerCreateBulkActivity | ManagerActivityDetail
      | ManagerTicketList | ManagerTicketCreateOrRedirect => ManagerCode
    case EmployeeDashboard | EmployeeProfileCreate | EmployeeProfileDetail | EmployeeProfileUpdate
      | EmployeeActivityList | EmployeeActivityDetail | EmployeeActivityUpdate
      | EmployeeTicketList | EmployeeTicketCreateOrRedirect => EmployeeCode
  }

  /** login_required (or LoginRequiredMixin) followed by the role check for the view's tier. */
  function Base(e: Endpoint): seq<Guard>
  {
    [LoginRequired, RoleRequired([Tier(e)])]
  }

  /** The guards a protected view declares after the login and role checks. */
  function Extra(e: Endpoint): seq<Guard>
  {
    match e
    case ManagerUserDetail => [EmployeeOwnerRequired, PassedUserApprovedProfileRequired]
    case ManagerMyActivityDetail => [ActivityOwnerRequired, VisibleActivityRequired]
    case ManagerMyActivityUpdate => [ActivityOwnerRequired, VisibleActivityRequired, ActiveTimeRequired]
    case ManagerActivityDetail => [ManagerActivityRequired]
    case EmployeeProfileDetail => [ProfileOwnerRequired]
    case EmployeeProfileUpdate => [ProfileOwnerRequired, DisApprovedProfileRequired]
    case EmployeeActivityList => [ApprovedProfileRequired]
    case EmployeeActivityDetail => [ActivityOwnerRequired, VisibleActivityRequired, ApprovedProfileRequired]
    case EmployeeActivityUpdate =>
      [ActivityOwnerRequired, VisibleActivityRequired, ApprovedProfileRequired, ActiveTimeRequired]
    case _ => []
  }

  /**
   * The guards each view declares, as written: none for the public views and,
   * unlike every other view, none for SuperAdminUserDeleteView.
   */
  function Guards(e: Endpoint): seq<Guard>
  {
    if Public(e) || e == SuperAdminUserDelete then [] else Base(e) + Extra(e)
  }

  /** The same table with the user-delete view guarded like its sibling, the activity-delete view. */
  function IntendedGuards(e: Endpoint): seq<Guard>
  {
    if e == SuperAdminUserDelete then Base(e) else Guards(e)
  }

  /** A request to a view passes its guards. */
  predicate Admits(e: Endpoint, q: Request)
  {
    FirstFailure(Guards(e), q) == Pass
  }

  /** A chain of three guards passes iff each of them does. */
  lemma PassesOfThree(a: Guard, b: Guard, c: Guard, q: Request)
    ensures FirstFailure([a, b, c], q) == Pass <==> Eval(a, q) == Pass && Eval(b, q) == Pass && Eval(c, q) == Pass
  {
    assert [a, b, c] == [a] + [b, c];
    FirstFailureCons(a, [b, c], q);
    assert [b, c] == [b] + [c];
    FirstFailureCons(b, [c], q);
    assert [c] == [c] + [];
    FirstFailureCons(c, [], q);
  }

  lemma PassesOfFour(a: Guard, b: Guard, c: Guard, d: Guard, q: Request)
    ensures FirstFailure([a, b, c, d], q) == Pass <==>
      Eval(a, q) == Pass && Eval(b, q) == Pass && Eval(c, q) == Pass && Eval(d, q) == Pass
  {
    assert [a, b, c, d] == [a] + [b, c, d];
    FirstFailureCons(a, [b, c, d], q);
    PassesOfThree(b, c, d, q);
  }

  lemma PassesOfFive(a: Guard, b: Guard, c: Guard, d: Guard, e: Guard, q: Request)
    ensures FirstFailure([a, b, c, d, e], q) == Pass <==>
      Eval(a, q) == Pass && Eval(b, q) == Pass && Eval(c, q) == Pass && Eval(d, q) == Pass && Eval(e, q) == Pass
  {
    assert [a, b, c, d, e] == [a] + [b, c, d, e];
    FirstFailureCons(a, [b, c, d, e], q);
    PassesOfFour(b, c, d, e, q);
  }

  lemma PassesOfSix(a: Guard, b: Guard, c: Guard, d: Guard, e: Guard, f: Guard, q: Request)
    ensures FirstFailure([a, b, c, d, e, f], q) == Pass <==>
      Eval(a, q) == Pass && Eval(b, q) == Pass && Eval(c, q) == Pass && Eval(d, q) == Pass &&
      Eval(e, q) == Pass && Eval(f, q) == Pass
  {
    assert [a, b, c, d, e, f] == [a] + [b, c, d, e, f];
    FirstFailureCons(a, [b, c, d, e, f], q);
    PassesOfFive(b, c, d, e, f, q);
  }

  // The guard lists of the views whose gates are stated below.

  lemma EmployeeActivityUpdateGuards()
    ensures Guards(EmployeeActivityUpdate) ==
      [LoginRequired, RoleRequired([EmployeeCode]), ActivityOwnerRequired, VisibleActivityRequired,
       ApprovedProfileRequired, ActiveTimeRequired]
  {
  }

  lemma ManagerMyActivityUpdateGuards()
    ensures Guards(ManagerMyActivityUpdate) ==
      [LoginRequired, RoleRequired([ManagerCode]), ActivityOwnerRequired, VisibleActivityRequired, ActiveTimeRequired]
  {
  }

  lemma EmployeeProfileUpdateGuards()
    ensures Guards(EmployeeProfileUpdate) ==
      [LoginRequired, RoleRequired([EmployeeCode]), ProfileOwnerRequired, DisApprovedProfileRequired]
  {
  }

  lemma ManagerUserDetailGuards()
    ensures Guards(ManagerUserDetail) ==
      [LoginRequired, RoleRequired([ManagerCode]), EmployeeOwnerRequired, PassedUserApprovedProfileRequired]
  {
  }

  lemma ManagerActivityDetailGuards()
    ensures Guards(ManagerActivityDetail) == [LoginRequired, RoleRequired([ManagerCode]), ManagerActivityRequired]
  {
  }

  /** When every guard before position k passes, the chain's verdict is decided at k. */
  lemma {:induction false} FirstFailureAt(gs: seq<Guard>, k: nat, q: Request)
    requires k < |gs|
    requires forall i :: 0 <= i < k ==> Eval(gs[i], q) == Pass
    ensures Eval(gs[k], q) != Pass ==> FirstFailure(gs, q) == Eval(gs[k], q)
    decreases k
  {
    if k > 0 {
      assert forall i :: 0 <= i < k - 1 ==> gs[1..][i] == gs[i + 1];
      FirstFailureAt(gs[1..], k - 1, q);
      assert gs[1..][k - 1] == gs[k];
    }
  }

  lemma FirstFailureCons(g: Guard, rest: seq<Guard>, q: Request)
    ensures FirstFailure([g] + rest, q) == if Eval(g, q) != Pass then Eval(g, q) else FirstFailure(rest, q)
  {
    assert ([g] + rest)[1..] == rest;
  }

  lemma BaseVerdict(e: Endpoint, rest: seq<Guard>, q: Request)
    ensures !IsAuthenticated(q.store, q.requester) ==> FirstFailure(Base(e) + rest, q) == ToLogin
    ensures IsAuthenticated(q.store, q.requester) && q.store.users[q.requester.id].userType != Tier(e) ==>
      FirstFailure(Base(e) + rest, q) == Denied(NoAccess)
    ensures IsAuthenticated(q.store, q.requester) && q.store.users[q.requester.id].userType == Tier(e) ==>
      FirstFailure(Base(e) + rest, q) == FirstFailure(rest, q)
  {
    assert Base(e) + rest == [LoginRequired] + ([RoleRequired([Tier(e)])] + rest);
    FirstFailureCons(LoginRequired, [RoleRequired([Tier(e)])] + rest, q);
    FirstFailureCons(RoleRequired([Tier(e)]), rest, q);
  }

  /** Every view but the public ones and the user-delete view sends an anonymous visitor to the login page. */
  lemma AnonymousRedirectedToLogin(e: Endpoint, q: Request)
    requires !Public(e) && e != SuperAdminUserDelete
    requires !IsAuthenticated(q.store, q.requester)
    ensures FirstFailure(Guards(e), q) == ToLogin
  {
    BaseVerdict(e, Extra(e), q);
  }

  /** Every protected view, the user-delete view aside, refuses a logged-in user of another tier. */
  lemma OtherTiersDenied(e: Endpoint, q: Request)
    requires !Public(e) && e != SuperAdminUserDelete
    requires IsAuthenticated(q.store, q.requester)
    requires q.store.users[q.requester.id].userType != Tier(e)
    ensures FirstFailure(Guards(e), q) == Denied(NoAccess)
  {
    BaseVerdict(e, Extra(e), q);
  }

  /** As written, the user-delete view lets every request through, anonymous ones included. */
  lemma UserDeleteOpenToEveryone(q: Request)
    ensures FirstFailure(Guards(SuperAdminUserDelete), q) == Pass
    ensures !IsAuthenticated(q.store, q.requester) ==> Admits(SuperAdminUserDelete, q)
  {
  }

  /** With the intended guards every non-public view turns away anonymous visitors and other tiers. */
  lemma IntendedGuardsCloseEveryView(e: Endpoint, q: Request)
    requires !Public(e)
    ensures !IsAuthenticated(q.store, q.requester) ==> FirstFailure(IntendedGuards(e), q) == ToLogin
    ensures IsAuthenticated(q.store, q.requester) && q.store.users[q.requester.id].userType != Tier(e) ==>
      FirstFailure(IntendedGuards(e), q) == Denied(NoAccess)
  {
    if e == SuperAdminUserDelete {
      BaseVerdict(e, [], q);
      assert Base(e) + [] == Base(e);
    } else {
      BaseVerdict(e, Extra(e), q);
    }
  }

  /** The employee's "mark as done" view: its six guards in order. */
  lemma EmployeeCompletionGate(q: Request)
    ensures Admits(EmployeeActivityUpdate, q) <==>
      && IsAuthenticated(q.store, q.requester)
      && q.store.users[q.requester.id].userType == EmployeeCode
      && CheckActivityOwner(q.store, q.requester, q.pk) == Pass
      && CheckVisibleActivity(q.store, q.pk) == Pass
      && CheckApprovedProfile(q.store, q.requester) == Pass
      && CheckActiveTime(q.store, q.pk, q.now, q.toGregorian) == Pass
  {
    EmployeeActivityUpdateGuards();
    PassesOfSix(LoginRequired, RoleRequired([EmployeeCode]), ActivityOwnerRequired, VisibleActivityRequired,
      ApprovedProfileRequired, ActiveTimeRequired, q);
  }

  /** A logged-in employee who is not the assignee cannot complete the activity. */
  lemma EmployeeCompletionNeedsAssignee(q: Request)
    requires IsAuthenticated(q.store, q.requester)
    requires q.store.users[q.requester.id].userType == EmployeeCode
    requires q.pk < |q.store.activities| && q.store.activities[q.pk].user != q.requester.id
    ensures FirstFailure(Guards(EmployeeActivityUpdate), q) == Denied(NotActivityOwner)
  {
    var gs := Guards(EmployeeActivityUpdate);
    EmployeeActivityUpdateGuards();
    assert Eval(gs[0], q) == Pass;
    assert Eval(gs[1], q) == Pass;
    assert Eval(gs[2], q) == Denied(NotActivityOwner);
    FirstFailureAt(gs, 2, q);
  }

  /** An assignee who passes every other guard is still refused outside the time window. */
  lemma EmployeeCompletionOutsideWindow(q: Request)
    requires IsAuthenticated(q.store, q.requester)
    requires q.store.users[q.requester.id].userType == EmployeeCode
    requires CheckActivityOwner(q.store, q.requester, q.pk) == Pass
    requires CheckVisibleActivity(q.store, q.pk) == Pass
    requires CheckApprovedProfile(q.store, q.requester) == Pass
    requires CheckActiveTime(q.store, q.pk, q.now, q.toGregorian) != Pass
    ensures FirstFailure(Guards(EmployeeActivityUpdate), q) == CheckActiveTime(q.store, q.pk, q.now, q.toGregorian)
  {
    var gs := Guards(EmployeeActivityUpdate);
    EmployeeActivityUpdateGuards();
    assert Eval(gs[0], q) == Pass;
    assert Eval(gs[1], q) == Pass;
    assert Eval(gs[2], q) == Pass && Eval(gs[3], q) == Pass && Eval(gs[4], q) == Pass;
    assert Eval(gs[5], q) == CheckActiveTime(q.store, q.pk, q.now, q.toGregorian);
    FirstFailureAt(gs, 5, q);
  }

  /** A manager completes only activities assigned to the manager, visible, inside their window. */
  lemma ManagerCompletionGate(q: Request)
    ensures Admits(ManagerMyActivityUpdate, q) <==>
      && IsAuthenticated(q.store, q.requester)
      && q.store.users[q.requester.id].userType == ManagerCode
      && CheckActivityOwner(q.store, q.requester, q.pk) == Pass
      && CheckVisibleActivity(q.store, q.pk) == Pass
      && CheckActiveTime(q.store, q.pk, q.now, q.toGregorian) == Pass
  {
    ManagerMyActivityUpdateGuards();
    PassesOfFive(LoginRequired, RoleRequired([ManagerCode]), ActivityOwnerRequired, VisibleActivityRequired,
      ActiveTimeRequired, q);
  }

  /** An employee edits a profile only when it is theirs and it has been rejected. */
  lemma ProfileEditOnlyWhileRejected(q: Request)
    requires OneProfilePerUser(q.store.profiles)
    ensures Admits(EmployeeProfileUpdate, q) <==>
      && IsAuthenticated(q.store, q.requester)
      && q.store.users[q.requester.id].userType == EmployeeCode
      && q.pk < |q.store.profiles|
      && q.store.profiles[q.pk].user == q.requester.id
      && q.store.profiles[q.pk].status == RejectedStatus
  {
    EmployeeProfileUpdateGuards();
    PassesOfFour(LoginRequired, RoleRequired([EmployeeCode]), ProfileOwnerRequired, DisApprovedProfileRequired, q);
    if IsAuthenticated(q.store, q.requester) && q.pk < |q.store.profiles| &&
       q.store.profiles[q.pk].user == q.requester.id {
      ProfileOfOwner(q.store, q.pk);
    }
  }

  /** A manager sees an employee's page only for a managed user with an approved profile. */
  lemma ManagerUserDetailGate(q: Request)
    ensures Admits(ManagerUserDetail, q) <==>
      && IsAuthenticated(q.store, q.requester)
      && q.store.users[q.requester.id].userType == ManagerCode
      && q.pk < |q.store.users|
      && q.store.users[q.pk].manager == Some(q.requester.id)
      && HasApprovedProfile(q.store, q.pk)
  {
    ManagerUserDetailGuards();
    PassesOfFour(LoginRequired, RoleRequired([ManagerCode]), EmployeeOwnerRequired, PassedUserApprovedProfileRequired, q);
  }

  /** The manager's view of an employee's activity checks the manager link and not the visibility flag. */
  lemma ManagerActivityDetailGate(q: Request)
    ensures Admits(ManagerActivityDetail, q) <==>
      && IsAuthenticated(q.store, q.requester)
      && q.store.users[q.requester.id].userType == ManagerCode
      && q.pk < |q.store.activities|
      && q.store.activities[q.pk].user < |q.store.users|
      && q.store.users[q.store.activities[q.pk].user].manager == Some(q.requester.id)
  {
    ManagerActivityDetailGuards();
    PassesOfThree(LoginRequired, RoleRequired([ManagerCode]), ManagerActivityRequired, q);
  }
}
