/**
 * The role-scoped get_queryset filters of the list views and the counts of
 * the super-admin dashboard.  A scope is applied first and the optional GET
 * filters only narrow it; text search (icontains) is an abstract matcher.
 */
module Listings {
  import opened Wrappers
  import opened Models
  import opened Forms

  /** contains(field, query): the icontains lookup, left abstract. */
  type Matcher = (string, string) -> bool

  /** A text filter over several fields; the empty query (a missing GET parameter) keeps everything. */
  predicate TextFilter(query: string, fields: seq<string>, contains: Matcher)
  {
    query == "" || exists i :: 0 <= i < |fields| && contains(fields[i], query)
  }

  /** A boolean GET filter after Django's BooleanField conversion of the string. */
  datatype Flag = AnyValue | Only(value: bool) | Unparseable

  function ParseFlag(v: string): (f: Flag)
    ensures f.Only? && f.value <==> v in {"t", "True", "1"}
    ensures f.Only? && !f.value <==> v in {"f", "False", "0"}
    ensures f == AnyValue <==> v == ""
  {
    if v == "" then AnyValue
    else if v in {"t", "True", "1"} then Only(true)
    else if v in {"f", "False", "0"} then Only(false)
    else Unparseable
  }

  predicate FlagFilter(f: Flag, b: bool)
  {
    f.Only? ==> f.value == b
  }

  // ---- user lists -------------------------------------------------------------------

  /** SuperAdminUserListView sees every user; ManagerUserListView only the manager's approved employees. */
  datatype UserScope = AllUsers | TeamOf(manager: UserId)

  predicate UserInScope(s: Store, scope: UserScope, u: UserId)
    requires u < |s.users|
  {
    match scope
    case AllUsers => true
    case TeamOf(m) =>
      s.users[u].manager == Some(m) && s.users[u].userType == EmployeeCode && HasApprovedProfile(s, u)
  }

  /** The GET parameters of the user lists; the manager's list reads only searchFullName. */
  datatype UserQuery = UserQuery(searchFullName: string, searchUserName: string, userType: string)

  const NoUserQuery: UserQuery := UserQuery("", "", "")

  function UserList(s: Store, scope: UserScope, q: UserQuery, contains: Matcher): set<UserId>
  {
    set u | 0 <= u < |s.users| && UserInScope(s, scope, u)
      && TextFilter(q.searchFullName, [s.users[u].firstName, s.users[u].lastName], contains)
      && (scope.AllUsers? ==> TextFilter(q.searchUserName, [s.users[u].username], contains))
      && (scope.AllUsers? && q.userType != "" ==> s.users[u].userType == q.userType)
  }

  /** Whatever is searched, a listed user is in scope, and searching only narrows the list. */
  lemma UserListScoped(s: Store, scope: UserScope, q: UserQuery, contains: Matcher, u: UserId)
    requires u in UserList(s, scope, q, contains)
    ensures u < |s.users| && UserInScope(s, scope, u)
    ensures u in UserList(s, scope, NoUserQuery, contains)
    ensures scope.AllUsers? && q.userType != "" ==> s.users[u].userType == q.userType
  {
  }

  /** Unsearched, the manager's employee list is exactly what the manager's bulk form offers. */
  lemma TeamListIsBulkCandidates(s: Store, m: UserId, contains: Matcher)
    ensures UserList(s, TeamOf(m), NoUserQuery, contains) == Candidates(ManagerBulkActivityForm(Some(m)), s)
  {
  }

  // ---- activity lists -----------------------------------------------------------------

  /**
   * SuperAdminActivityListView sees every activity; ManagerMyActivityListView
   * and EmployeeActivityListView the requester's own visible activities;
   * ManagerActivityListView the visible activities of the manager's approved employees.
   */
  datatype ActivityScope = AllActivities | OwnVisible(user: UserId) | TeamVisible(manager: UserId)

  predicate ActivityInScope(s: Store, scope: ActivityScope, a: ActivityId)
    requires a < |s.activities|
  {
    var act := s.activities[a];
    match scope
    case AllActivities => true
    case OwnVisible(u) => act.visibility && act.user == u
    case TeamVisible(m) =>
      && act.visibility
      && act.user < |s.users|
      && s.users[act.user].manager == Some(m)
      && s.users[act.user].userType == EmployeeCode
      && HasApprovedProfile(s, act.user)
  }

  /** The GET parameters q, is_completed and (super-admin only) visibility. */
  datatype ActivityQuery = ActivityQuery(q: string, isCompleted: string, visibility: string)

  const NoActivityQuery: ActivityQuery := ActivityQuery("", "", "")

  /** None when a boolean filter does not convert (the lookup raises, a server error). */
  function ActivityList(s: Store, scope: ActivityScope, q: ActivityQuery, contains: Matcher): Option<set<ActivityId>>
  {
    var done := ParseFlag(q.isCompleted);
    var shown := if scope.AllActivities? then ParseFlag(q.visibility) else AnyValue;
    if done.Unparseable? || shown.Unparseable? then None
    else Some(set a | 0 <= a < |s.activities| && ActivityInScope(s, scope, a)
      && TextFilter(q.q, [s.activities[a].title], contains)
      && FlagFilter(done, s.activities[a].isCompleted)
      && FlagFilter(shown, s.activities[a].visibility))
  }

  /** Whatever is searched, a listed activity is in scope, and filters only narrow the list. */
  lemma ActivityListScoped(s: Store, scope: ActivityScope, q: ActivityQuery, contains: Matcher, a: ActivityId)
    requires ActivityList(s, scope, q, contains).Some?
    requires a in ActivityList(s, scope, q, contains).value
    ensures a < |s.activities| && ActivityInScope(s, scope, a)
    ensures ActivityList(s, scope, NoActivityQuery, contains).Some?
    ensures a in ActivityList(s, scope, NoActivityQuery, contains).value
    ensures ParseFlag(q.isCompleted).Only? ==> s.activities[a].isCompleted == ParseFlag(q.isCompleted).value
  {
  }

  /** A filter value Django cannot convert is an error, not an empty list; a missing one never is. */
  lemma ActivityListErrors(s: Store, scope: ActivityScope, q: ActivityQuery, contains: Matcher)
    ensures ActivityList(s, scope, q, contains).None? <==>
      ParseFlag(q.isCompleted).Unparseable? || (scope.AllActivities? && ParseFlag(q.visibility).Unparseable?)
    ensures q.isCompleted == "" && q.visibility == "" ==> ActivityList(s, scope, q, contains).Some?
  {
  }

  /** A manager's team list shows only activities of users the manager's bulk form offers. */
  lemma TeamActivitiesBelongToCandidates(s: Store, m: UserId, q: ActivityQuery, contains: Matcher, a: ActivityId)
    requires ActivityList(s, TeamVisible(m), q, contains).Some?
    requires a in ActivityList(s, TeamVisible(m), q, contains).value
    ensures s.activities[a].user in Candidates(ManagerBulkActivityForm(Some(m)), s)
  {
  }

  // ---- profile list -------------------------------------------------------------------

  /** SuperAdminProfileListView: every profile, or those whose status equals the GET parameter. */
  function ProfileList(s: Store, status: string): set<ProfileId>
  {
    set p | 0 <= p < |s.profiles| && (status == "" || s.profiles[p].status == status)
  }

  /** The status filter keeps exactly the profiles with that status; a blank one lists every profile. */
  lemma ProfileListFilters(s: Store, status: string, p: ProfileId)
    ensures p in ProfileList(s, status) ==> p < |s.profiles| && p in ProfileList(s, "")
    ensures status != "" ==> (p in ProfileList(s, status) <==> p < |s.profiles| && s.profiles[p].status == status)
    ensures p in ProfileList(s, "") <==> p < |s.profiles|
    ensures (status != "" && status !in StatusChoices &&
             forall j :: 0 <= j < |s.profiles| ==> s.profiles[j].status in StatusChoices) ==>
      p !in ProfileList(s, status)
  {
  }

  // ---- the super-admin dashboard --------------------------------------------------------

  /** The number of users with the given user_type. */
  function CountType(us: seq<User>, t: string): (n: nat)
    ensures n <= |us|
    decreases |us|
  {
    if |us| == 0 then 0 else CountType(us[..|us| - 1], t) + (if us[|us| - 1].userType == t then 1 else 0)
  }

  /** The number of activities with the given visibility. */
  function CountVisibility(acts: seq<Activity>, v: bool): (n: nat)
    ensures n <= |acts|
    decreases |acts|
  {
    if |acts| == 0 then 0
    else CountVisibility(acts[..|acts| - 1], v) + (if acts[|acts| - 1].visibility == v then 1 else 0)
  }

  /** super_admin_dashboard's context: four counts and two lists. */
  datatype Dashboard = Dashboard(
    usersCount: nat,
    managersCount: nat,
    employeesCount: nat,
    activitiesCount: nat,
    awaitingProfiles: set<ProfileId>,
    hiddenActivities: set<ActivityId>)

  function HiddenBelow(acts: seq<Activity>, n: nat): set<ActivityId>
    requires n <= |acts|
  {
    set a | 0 <= a < n && !acts[a].visibility
  }

  function SuperAdminDashboard(s: Store): Dashboard
  {
    Dashboard(
      |s.users|,
      CountType(s.users, ManagerCode),
      CountType(s.users, EmployeeCode),
      CountVisibility(s.activities, true),
      ProfileList(s, PendingStatus),
      HiddenBelow(s.activities, |s.activities|))
  }

  lemma {:induction false} VisibilityPartition(acts: seq<Activity>)
    ensures CountVisibility(acts, true) + CountVisibility(acts, false) == |acts|
    decreases |acts|
  {
    if |acts| > 0 {
      VisibilityPartition(acts[..|acts| - 1]);
    }
  }

  lemma {:induction false} HiddenBelowCount(acts: seq<Activity>, n: nat)
    requires n <= |acts|
    ensures |HiddenBelow(acts, n)| == CountVisibility(acts[..n], false)
    decreases n
  {
    if n > 0 {
      HiddenBelowCount(acts, n - 1);
      assert acts[..n][..n - 1] == acts[..n - 1];
      if acts[n - 1].visibility {
        assert HiddenBelow(acts, n) == HiddenBelow(acts, n - 1);
      } else {
        assert HiddenBelow(acts, n) == HiddenBelow(acts, n - 1) + {n - 1};
      }
    }
  }

  lemma {:induction false} TypePartition(us: seq<User>)
    ensures CountType(us, ManagerCode) + CountType(us, EmployeeCode) <= |us|
    ensures (forall i :: 0 <= i < |us| ==> us[i].userType in UserTypeChoices) ==>
      CountType(us, SuperAdminCode) + CountType(us, ManagerCode) + CountType(us, EmployeeCode) == |us|
    decreases |us|
  {
    if |us| > 0 {
      TypePartition(us[..|us| - 1]);
    }
  }

  /**
   * The dashboard's figures partition the tables: visible activities plus
   * the hidden list make up all activities, and managers plus employees
   * (plus super-admins, when every user_type is a valid code) make up all users.
   */
  lemma DashboardPartition(s: Store)
    ensures SuperAdminDashboard(s).activitiesCount + |SuperAdminDashboard(s).hiddenActivities| == |s.activities|
    ensures SuperAdminDashboard(s).managersCount + SuperAdminDashboard(s).employeesCount <= SuperAdminDashboard(s).usersCount
    ensures (forall u :: 0 <= u < |s.users| ==> s.users[u].userType in UserTypeChoices) ==>
      CountType(s.users, SuperAdminCode) + SuperAdminDashboard(s).managersCount + SuperAdminDashboard(s).employeesCount
        == SuperAdminDashboard(s).usersCount
    ensures forall a: ActivityId :: a in SuperAdminDashboard(s).hiddenActivities <==> a < |s.activities| && !s.activities[a].visibility
    ensures forall p: ProfileId :: p in SuperAdminDashboard(s).awaitingProfiles <==> p < |s.profiles| && s.profiles[p].status == PendingStatus
  {
    VisibilityPartition(s.activities);
    HiddenBelowCount(s.activities, |s.activities|);
    assert s.activities[..|s.activities|] == s.activities;
    TypePartition(s.users);
  }
}
