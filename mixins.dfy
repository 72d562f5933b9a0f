/**
 * The access guards of the application (RoleRequiredMixin / role_required
 * and the other mixin / decorator pairs).  Each guard reads the datastore
 * and the request and either lets the request through or stops it; all of
 * them run before the view's handler.
 */
module Mixins {
  import opened Wrappers
  import opened Calendar
  import opened Models

  /** request.user: an anonymous visitor or the user with the given primary key. */
  datatype Requester = Anonymous | Member(id: UserId)

  /** The reasons carried by PermissionDenied, one per check. */
  datatype Reason =
    | LoginFirst                 // not logged in
    | NoAccess                   // user_type not in the allowed roles
    | ProfileNotApproved         // own profile missing or not approved
    | ProfileNotRejected         // own profile not rejected
    | NotTheirManager            // the path user is not managed by the requester
    | NotActivityOwner           // the activity is not assigned to the requester
    | NotTheirEmployeesActivity  // the activity's assignee is not managed by the requester
    | ActivityHidden             // the activity's visibility is false
    | NotProfileOwner            // the profile belongs to someone else
    | TargetProfileNotApproved   // the path user has no approved profile
    | OutsideActiveTime          // now is outside the activity's time window

  /**
   * What a guard does with a request: let it through, raise PermissionDenied,
   * raise a lookup error that nothing catches (Missing: a `.get(pk=...)` or a
   * `user_profile` access that finds no row), let the Jalali converter raise
   * (BadDate), or redirect to the login page (ToLogin).
   */
  datatype Verdict = Pass | Denied(reason: Reason) | Missing | BadDate | ToLogin

  /** What a guard can see: the datastore, the requester, the path's pk, the clock and the converter. */
  datatype Request = Request(store: Store, requester: Requester, pk: nat, now: DateTime, toGregorian: Converter)

  /** A session whose user row no longer exists is anonymous. */
  predicate IsAuthenticated(s: Store, r: Requester)
  {
    r.Member? && r.id < |s.users|
  }

  /** `u == request.user`. */
  predicate IsRequester(s: Store, r: Requester, u: UserId)
  {
    IsAuthenticated(s, r) && r.id == u
  }

  /** `manager == request.user` for a nullable manager reference. */
  predicate ManagedBy(s: Store, r: Requester, manager: Option<UserId>)
  {
    manager.Some? && IsRequester(s, r, manager.value)
  }

  // ---- the guards ----------------------------------------------------------

  /** LoginRequiredMixin / login_required. */
  function CheckLogin(s: Store, r: Requester): Verdict
  {
    if IsAuthenticated(s, r) then Pass else ToLogin
  }

  /** RoleRequiredMixin.dispatch / role_required: login first, then the role code. */
  function CheckRole(allowed: seq<string>, s: Store, r: Requester): Verdict
  {
    if !IsAuthenticated(s, r) then Denied(LoginFirst)
    else if s.users[r.id].userType !in allowed then Denied(NoAccess)
    else Pass
  }

  /** ApprovedProfileRequiredMixin / approved_profile_required. */
  function CheckApprovedProfile(s: Store, r: Requester): Verdict
  {
    if !IsAuthenticated(s, r) || ProfileStatus(s, r.id) != Some(ApprovedStatus) then Denied(ProfileNotApproved)
    else Pass
  }

  /** DisApprovedProfileRequiredMixin / dis_approved_profile_required: a missing profile is not handled. */
  function CheckDisApprovedProfile(s: Store, r: Requester): Verdict
  {
    if !IsAuthenticated(s, r) then Missing
    else match ProfileStatus(s, r.id)
      case None => Missing
      case Some(status) => if status != RejectedStatus then Denied(ProfileNotRejected) else Pass
  }

  /** EmployeeOwnerRequiredMixin / employee_owner_required. */
  function CheckEmployeeOwner(s: Store, r: Requester, pk: nat): Verdict
  {
    if pk >= |s.users| then Missing
    else if !ManagedBy(s, r, s.users[pk].manager) then Denied(NotTheirManager)
    else Pass
  }

  /** ActivityOwnerRequiredMixin / activity_owner_required. */
  function CheckActivityOwner(s: Store, r: Requester, pk: nat): Verdict
  {
    if pk >= |s.activities| then Missing
    else if !IsRequester(s, r, s.activities[pk].user) then Denied(NotActivityOwner)
    else Pass
  }

  /** ManagerActivityRequiredMixin / manager_activity_required. */
  function CheckManagerActivity(s: Store, r: Requester, pk: nat): Verdict
  {
    if pk >= |s.activities| || s.activities[pk].user >= |s.users| then Missing
    else if !ManagedBy(s, r, s.users[s.activities[pk].user].manager) then Denied(NotTheirEmployeesActivity)
    else Pass
  }

  /** VisibleActivityRequiredMixin / visible_activity_required. */
  function CheckVisibleActivity(s: Store, pk: nat): Verdict
  {
    if pk >= |s.activities| then Missing
    else if !s.activities[pk].visibility then Denied(ActivityHidden)
    else Pass
  }

  /** ProfileOwnerRequiredMixin / profile_owner_required. */
  function CheckProfileOwner(s: Store, r: Requester, pk: nat): Verdict
  {
    if pk >= |s.profiles| then Missing
    else if !IsRequester(s, r, s.profiles[pk].user) then Denied(NotProfileOwner)
    else Pass
  }

  /** PassedUserApprovedProfileRequiredMixin / passed_user_approved_profile_required. */
  function CheckPassedUserApprovedProfile(s: Store, pk: nat): Verdict
  {
    if pk >= |s.users| then Missing
    else if ProfileStatus(s, pk) != Some(ApprovedStatus) then Denied(TargetProfileNotApproved)
    else Pass
  }

  datatype Window = Window(start: DateTime, end: DateTime)

  /** The instants an activity's Persian dates and times stand for; None when a date does not convert. */
  function ActiveWindow(a: Activity, toGregorian: Converter): Option<Window>
  {
    match toGregorian(a.startDate)
    case None => None
    case Some(startDate) =>
      match toGregorian(a.endDate)
      case None => None
      case Some(endDate) => Some(Window(DateTime(startDate, a.startTime), DateTime(endDate, a.endTime)))
  }

  /** ActiveTimeRequiredMixin / active_time_required: start <= now <= end. */
  function CheckActiveTime(s: Store, pk: nat, now: DateTime, toGregorian: Converter): Verdict
  {
    if pk >= |s.activities| then Missing
    else match ActiveWindow(s.activities[pk], toGregorian)
      case None => BadDate
      case Some(w) => if NotAfter(w.start, now) && NotAfter(now, w.end) then Pass else Denied(OutsideActiveTime)
  }

  // ---- guards as values, and how a chain of them runs ------------------------

  datatype Guard =
    | LoginRequired
    | RoleRequired(allowed: seq<string>)
    | ApprovedProfileRequired
    | DisApprovedProfileRequired
    | EmployeeOwnerRequired
    | ActivityOwnerRequired
    | ManagerActivityRequired
    | VisibleActivityRequired
    | ProfileOwnerRequired
    | PassedUserApprovedProfileRequired
    | ActiveTimeRequired

  function Eval(g: Guard, q: Request): Verdict
  {
    match g
    case LoginRequired => CheckLogin(q.store, q.requester)
    case RoleRequired(allowed) => CheckRole(allowed, q.store, q.requester)
    case ApprovedProfileRequired => CheckApprovedProfile(q.store, q.requester)
    case DisApprovedProfileRequired => CheckDisApprovedProfile(q.store, q.requester)
    case EmployeeOwnerRequired => CheckEmployeeOwner(q.store, q.requester, q.pk)
    case ActivityOwnerRequired => CheckActivityOwner(q.store, q.requester, q.pk)
    case ManagerActivityRequired => CheckManagerActivity(q.store, q.requester, q.pk)
    case VisibleActivityRequired => CheckVisibleActivity(q.store, q.pk)
    case ProfileOwnerRequired => CheckProfileOwner(q.store, q.requester, q.pk)
    case PassedUserApprovedProfileRequired => CheckPassedUserApprovedProfile(q.store, q.pk)
    case ActiveTimeRequired => CheckActiveTime(q.store, q.pk, q.now, q.toGregorian)
  }

  /** role_required(allowed_roles=None): an omitted list stands for the empty list. */
  function RoleRequiredDecorator(allowed: Option<seq<string>>): Guard
  {
    RoleRequired(if allowed.None? then [] else allowed.value)
  }

  /** The verdict of a chain: the first guard that does not pass, or Pass. */
  function FirstFailure(gs: seq<Guard>, q: Request): Verdict
    decreases |gs|
  {
    if |gs| == 0 then Pass
    else if Eval(gs[0], q) != Pass then Eval(gs[0], q)
    else FirstFailure(gs[1..], q)
  }

  /** A chain passes iff each guard passes; otherwise it answers with its first failing guard's verdict. */
  lemma {:induction false} FirstFailureSpec(gs: seq<Guard>, q: Request)
    ensures FirstFailure(gs, q) == Pass <==> forall i :: 0 <= i < |gs| ==> Eval(gs[i], q) == Pass
    ensures FirstFailure(gs, q) != Pass ==>
      exists i :: 0 <= i < |gs| && Eval(gs[i], q) == FirstFailure(gs, q) &&
        forall j :: 0 <= j < i ==> Eval(gs[j], q) == Pass
    decreases |gs|
  {
    if |gs| > 0 && Eval(gs[0], q) == Pass {
      FirstFailureSpec(gs[1..], q);
      assert forall i :: 1 <= i < |gs| ==> gs[i] == gs[1..][i - 1];
      if FirstFailure(gs, q) != Pass {
        var k :| 0 <= k < |gs[1..]| && Eval(gs[1..][k], q) == FirstFailure(gs, q) &&
          forall j :: 0 <= j < k ==> Eval(gs[1..][j], q) == Pass;
        assert Eval(gs[k + 1], q) == FirstFailure(gs, q);
      }
    }
  }

  datatype Response<R> = Blocked(verdict: Verdict) | Ran(result: R)

  /**
   * The class-based form: each mixin's dispatch checks its condition and then
   * calls super().dispatch, so the mixins run in the order the class lists them
   * and the view's handler runs last.
   */
  function Dispatch<R>(mro: seq<Guard>, q: Request, view: Request -> R): Response<R>
    decreases |mro|
  {
    if |mro| == 0 then Ran(view(q))
    else if Eval(mro[0], q) != Pass then Blocked(Eval(mro[0], q))
    else Dispatch(mro[1..], q, view)
  }

  /** The function-based form: one decorator wraps a view in its check. */
  function Decorate<R>(g: Guard, h: Request -> Response<R>): Request -> Response<R>
  {
    q => if Eval(g, q) != Pass then Blocked(Eval(g, q)) else h(q)
  }

  /** `@g0 @g1 ... def view`: the decorators listed first wrap outermost. */
  function Stack<R>(gs: seq<Guard>, view: Request -> R): Request -> Response<R>
    decreases |gs|
  {
    if |gs| == 0 then q => Ran(view(q))
    else Decorate(gs[0], Stack(gs[1..], view))
  }

  // ---- properties ------------------------------------------------------------

  /** The handler runs iff every guard passes; otherwise the first failure is the response. */
  lemma {:induction false} DispatchRunsViewIffChainPasses<R>(mro: seq<Guard>, q: Request, view: Request -> R)
    ensures Dispatch(mro, q, view) ==
      if FirstFailure(mro, q) == Pass then Ran(view(q)) else Blocked(FirstFailure(mro, q))
    decreases |mro|
  {
    if |mro| > 0 && Eval(mro[0], q) == Pass {
      DispatchRunsViewIffChainPasses(mro[1..], q, view);
    }
  }

  /** A denied request gets the same response whatever the handler would have done. */
  lemma DeniedBeforeHandler<R>(mro: seq<Guard>, q: Request, view1: Request -> R, view2: Request -> R)
    requires FirstFailure(mro, q) != Pass
    ensures Dispatch(mro, q, view1) == Dispatch(mro, q, view2) == Blocked(FirstFailure(mro, q))
  {
    DispatchRunsViewIffChainPasses(mro, q, view1);
    DispatchRunsViewIffChainPasses(mro, q, view2);
  }

  /** Stacking the decorators decides every request exactly as the mixin chain does. */
  lemma {:induction false} DecoratorsAgreeWithMixins<R>(gs: seq<Guard>, q: Request, view: Request -> R)
    ensures Stack(gs, view)(q) == Dispatch(gs, q, view)
    decreases |gs|
  {
    if |gs| > 0 {
      DecoratorsAgreeWithMixins(gs[1..], q, view);
    }
  }

  lemma RoleGuard(allowed: seq<string>, s: Store, r: Requester)
    ensures !IsAuthenticated(s, r) ==> CheckRole(allowed, s, r) == Denied(LoginFirst)
    ensures IsAuthenticated(s, r) ==>
      (CheckRole(allowed, s, r) == Pass <==> s.users[r.id].userType in allowed)
    ensures CheckRole(allowed, s, r) == Pass || CheckRole(allowed, s, r) == Denied(LoginFirst) ||
      CheckRole(allowed, s, r) == Denied(NoAccess)
    ensures allowed == [] ==> CheckRole(allowed, s, r) != Pass
  {
  }

  /** role_required with a list decides as RoleRequiredMixin with that list; without one it lets nobody in. */
  lemma RoleDecoratorAgrees(allowed: seq<string>, q: Request)
    ensures Eval(RoleRequiredDecorator(Some(allowed)), q) == CheckRole(allowed, q.store, q.requester)
    ensures Eval(RoleRequiredDecorator(None), q) != Pass
  {
  }

  lemma ApprovedProfileGuard(s: Store, r: Requester)
    ensures CheckApprovedProfile(s, r) == Pass <==> IsAuthenticated(s, r) && HasApprovedProfile(s, r.id)
    ensures CheckApprovedProfile(s, r) != Pass ==> CheckApprovedProfile(s, r) == Denied(ProfileNotApproved)
    ensures IsAuthenticated(s, r) && ProfileStatus(s, r.id).None? ==>
      CheckApprovedProfile(s, r) == Denied(ProfileNotApproved)
  {
  }

  lemma DisApprovedProfileGuard(s: Store, r: Requester)
    ensures CheckDisApprovedProfile(s, r) == Pass <==>
      IsAuthenticated(s, r) && ProfileStatus(s, r.id) == Some(RejectedStatus)
    ensures CheckDisApprovedProfile(s, r) == Missing <==>
      !IsAuthenticated(s, r) || ProfileStatus(s, r.id).None?
  {
  }

  /** No profile status passes both the approved and the rejected guard. */
  lemma ApprovedAndRejectedExclusive(s: Store, r: Requester)
    ensures !(CheckApprovedProfile(s, r) == Pass && CheckDisApprovedProfile(s, r) == Pass)
  {
  }

  /** The path-user variant applies the approved-profile test to the user the pk names. */
  lemma PassedUserApprovedProfileGuard(s: Store, pk: nat)
    ensures pk >= |s.users| ==> CheckPassedUserApprovedProfile(s, pk) == Missing
    ensures pk < |s.users| ==>
      (CheckPassedUserApprovedProfile(s, pk) == Pass <==> CheckApprovedProfile(s, Member(pk)) == Pass)
    ensures pk < |s.users| && CheckPassedUserApprovedProfile(s, pk) != Pass ==>
      CheckPassedUserApprovedProfile(s, pk) == Denied(TargetProfileNotApproved)
  {
  }

  lemma OwnershipGuards(s: Store, r: Requester, pk: nat)
    ensures pk >= |s.activities| ==> CheckActivityOwner(s, r, pk) == Missing
    ensures pk < |s.activities| ==>
      (CheckActivityOwner(s, r, pk) == Pass <==> IsRequester(s, r, s.activities[pk].user))
    ensures pk >= |s.activities| ==> CheckManagerActivity(s, r, pk) == Missing
    ensures pk < |s.activities| && s.activities[pk].user < |s.users| ==>
      (CheckManagerActivity(s, r, pk) == Pass <==> ManagedBy(s, r, s.users[s.activities[pk].user].manager))
    ensures pk >= |s.users| ==> CheckEmployeeOwner(s, r, pk) == Missing
    ensures pk < |s.users| ==>
      (CheckEmployeeOwner(s, r, pk) == Pass <==> ManagedBy(s, r, s.users[pk].manager))
    ensures pk >= |s.profiles| ==> CheckProfileOwner(s, r, pk) == Missing
    ensures pk < |s.profiles| ==>
      (CheckProfileOwner(s, r, pk) == Pass <==> IsRequester(s, r, s.profiles[pk].user))
  {
  }

  /** An anonymous requester owns and manages nothing. */
  lemma AnonymousOwnsNothing(s: Store, pk: nat)
    ensures CheckActivityOwner(s, Anonymous, pk) != Pass
    ensures CheckManagerActivity(s, Anonymous, pk) != Pass
    ensures CheckEmployeeOwner(s, Anonymous, pk) != Pass
    ensures CheckProfileOwner(s, Anonymous, pk) != Pass
  {
  }

  lemma VisibleActivityGuard(s: Store, pk: nat)
    ensures pk >= |s.activities| <==> CheckVisibleActivity(s, pk) == Missing
    ensures CheckVisibleActivity(s, pk) == Denied(ActivityHidden) <==>
      pk < |s.activities| && !s.activities[pk].visibility
  {
  }

  lemma ActiveTimeGuard(s: Store, pk: nat, now: DateTime, toGregorian: Converter)
    ensures CheckActiveTime(s, pk, now, toGregorian) == Missing <==> pk >= |s.activities|
    ensures CheckActiveTime(s, pk, now, toGregorian) == BadDate <==>
      pk < |s.activities| && ActiveWindow(s.activities[pk], toGregorian).None?
    ensures CheckActiveTime(s, pk, now, toGregorian) == Pass <==>
      pk < |s.activities| && ActiveWindow(s.activities[pk], toGregorian).Some? &&
      NotAfter(ActiveWindow(s.activities[pk], toGregorian).value.start, now) &&
      NotAfter(now, ActiveWindow(s.activities[pk], toGregorian).value.end)
  {
  }

  /** The window is closed: its two ends are inside it whenever it is not empty. */
  lemma WindowClosedAtBothEnds(s: Store, pk: nat, toGregorian: Converter)
    requires pk < |s.activities| && ActiveWindow(s.activities[pk], toGregorian).Some?
    requires NotAfter(ActiveWindow(s.activities[pk], toGregorian).value.start,
                      ActiveWindow(s.activities[pk], toGregorian).value.end)
    ensures CheckActiveTime(s, pk, ActiveWindow(s.activities[pk], toGregorian).value.start, toGregorian) == Pass
    ensures CheckActiveTime(s, pk, ActiveWindow(s.activities[pk], toGregorian).value.end, toGregorian) == Pass
  {
    var w := ActiveWindow(s.activities[pk], toGregorian).value;
    NotAfterIsTotalOrder(w.start, w.end, w.end);
    NotAfterIsTotalOrder(w.end, w.start, w.start);
  }

  /** An activity whose end comes before its start is never inside its window. */
  lemma InvertedWindowNeverPasses(s: Store, pk: nat, now: DateTime, toGregorian: Converter)
    requires pk < |s.activities| && ActiveWindow(s.activities[pk], toGregorian).Some?
    requires !NotAfter(ActiveWindow(s.activities[pk], toGregorian).value.start,
                       ActiveWindow(s.activities[pk], toGregorian).value.end)
    ensures CheckActiveTime(s, pk, now, toGregorian) == Denied(OutsideActiveTime)
  {
    var w := ActiveWindow(s.activities[pk], toGregorian).value;
    NotAfterIsTotalOrder(w.start, now, w.end);
  }
}
