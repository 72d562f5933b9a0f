/**
 * The activity views that write: bulk creation by a super-admin or a
 * manager (one new activity per selected user), and the two "mark as done"
 * views whose form_valid forces is_completed.
 */
module ActivityViews {
  import opened Wrappers
  import opened Calendar
  import opened Models
  import opened Mixins
  import opened Endpoints
  import opened Forms

  /** Activity.objects.create(user=user, **activity_data). */
  function NewActivity(user: UserId, creater: UserId, f: ActivityFields, visibility: bool): Activity
  {
    Activity(user, creater, f.title, f.body, f.startDate, f.startTime, f.endDate, f.endTime,
             f.sensitivity, DefaultIsCompleted, visibility)
  }

  /** The activities a bulk view creates for the given users, one each, in order. */
  function BulkActivities(users: seq<UserId>, creater: UserId, f: ActivityFields, visibility: bool): (r: seq<Activity>)
    ensures |r| == |users|
    ensures forall k :: 0 <= k < |users| ==> r[k] == NewActivity(users[k], creater, f, visibility)
    decreases |users|
  {
    if |users| == 0 then [] else [NewActivity(users[0], creater, f, visibility)] + BulkActivities(users[1..], creater, f, visibility)
  }

  /** The for-loop of the bulk views: one create per selected user. */
  method AppendActivities(acts: seq<Activity>, users: seq<UserId>, creater: UserId, f: ActivityFields, visibility: bool)
    returns (acts': seq<Activity>)
    ensures acts' == acts + BulkActivities(users, creater, f, visibility)
  {
    acts' := acts;
    for k := 0 to |users|
      invariant |acts'| == |acts| + k
      invariant acts'[..|acts|] == acts
      invariant forall j :: 0 <= j < k ==> acts'[|acts| + j] == NewActivity(users[j], creater, f, visibility)
    {
      acts' := acts' + [NewActivity(users[k], creater, f, visibility)];
    }
    assert acts' == acts + BulkActivities(users, creater, f, visibility);
  }

  /**
   * A bulk-creation POST with a given form: an invalid form changes nothing
   * and reports its errors; a valid one appends the new activities and
   * touches nothing else.
   */
  method CreateBulk(form: BulkForm, visibility: bool, s: Store, requester: UserId, sub: BulkSubmission)
    returns (s': Store, errors: set<BulkField>)
    ensures CleanBulk(form, s, sub).Err? ==> s' == s && errors == CleanBulk(form, s, sub).error
    ensures CleanBulk(form, s, sub).Ok? ==> (
      && errors == {}
      && s' == s.(activities := s.activities +
           BulkActivities(CleanBulk(form, s, sub).value.users, requester, CleanBulk(form, s, sub).value.fields, visibility)))
  {
    var cleaned := CleanBulk(form, s, sub);
    if cleaned.Err? {
      return s, cleaned.error;
    }
    var acts' := AppendActivities(s.activities, cleaned.value.users, requester, cleaned.value.fields, visibility);
    s', errors := s.(activities := acts'), {};
  }

  /**
   * What a valid bulk submission creates: exactly one activity for each
   * selected user, all with the requester as creater, the shared fields,
   * the given visibility and not completed, each for a user the form offers.
   */
  lemma BulkCreatesOnePerSelectedUser(
    form: BulkForm, s: Store, sub: BulkSubmission, requester: UserId, visibility: bool, d: BulkData, created: seq<Activity>)
    requires CleanBulk(form, s, sub) == Ok(d)
    requires created == BulkActivities(d.users, requester, d.fields, visibility)
    ensures
      && (forall u: UserId :: u in sub.users ==> exists k :: 0 <= k < |created| && created[k].user == u)
      && (forall k :: 0 <= k < |created| ==> created[k].user in sub.users)
      && (forall k1, k2 :: 0 <= k1 < k2 < |created| ==> created[k1].user != created[k2].user)
      && (forall k :: 0 <= k < |created| ==>
            && created[k].creater == requester
            && created[k].visibility == visibility
            && !created[k].isCompleted
            && created[k].user in Candidates(form, s)
            && created[k] == NewActivity(created[k].user, requester, d.fields, visibility))
  {
    forall u: UserId | u in sub.users
      ensures exists k :: 0 <= k < |created| && created[k].user == u
    {
      assert u in d.users;
      var i :| 0 <= i < |d.users| && d.users[i] == u;
      assert created[i].user == u;
    }
    forall k | 0 <= k < |created|
      ensures created[k].user in sub.users && created[k].user in Candidates(form, s)
    {
      assert created[k].user == d.users[k];
    }
  }

  /**
   * Where the new activities sit in the store: after the old ones, one for
   * every cleaned user, each carrying the cleaned fields.
   */
  lemma NewActivitiesAreTheCreated(
    form: BulkForm, visibility: bool, s: Store, requester: UserId, sub: BulkSubmission,
    d: BulkData, acts: seq<Activity>)
    requires forall u :: u in d.users <==> u in sub.users
    requires forall u :: u in d.users ==> u in Candidates(form, s)
    requires d.fields.title == sub.title && d.fields.body == sub.body && d.fields.startDate == sub.startDate
    requires d.fields.endDate == sub.endDate && d.fields.sensitivity == sub.sensitivity
    requires acts == s.activities + BulkActivities(d.users, requester, d.fields, visibility)
    ensures forall u: UserId :: u in sub.users ==> exists k :: |s.activities| <= k < |acts| && acts[k].user == u
    ensures forall k :: |s.activities| <= k < |acts| ==>
      && acts[k].user in sub.users
      && acts[k].user in Candidates(form, s)
      && acts[k].creater == requester
      && acts[k].visibility == visibility
      && acts[k].title == sub.title && acts[k].body == sub.body
      && acts[k].startDate == sub.startDate && acts[k].endDate == sub.endDate
      && acts[k].sensitivity == sub.sensitivity && !acts[k].isCompleted
  {
    BulkCoversUsers(s.activities, d.users, requester, d.fields, visibility, acts);
    BulkCarriesFields(s.activities, d.users, requester, d.fields, visibility, acts);
  }

  /** Every user of the list owns one of the appended activities. */
  lemma BulkCoversUsers(
    before: seq<Activity>, users: seq<UserId>, creater: UserId, f: ActivityFields, visibility: bool,
    acts: seq<Activity>)
    requires acts == before + BulkActivities(users, creater, f, visibility)
    ensures forall u :: u in users ==> exists k :: |before| <= k < |acts| && acts[k].user == u
  {
    forall u | u in users
      ensures exists k :: |before| <= k < |acts| && acts[k].user == u
    {
      var j :| 0 <= j < |users| && users[j] == u;
      assert acts[|before| + j] == BulkActivities(users, creater, f, visibility)[j];
    }
  }

  /** The appended activities are, in order, the new activities of the listed users. */
  lemma BulkCarriesFields(
    before: seq<Activity>, users: seq<UserId>, creater: UserId, f: ActivityFields, visibility: bool,
    acts: seq<Activity>)
    requires acts == before + BulkActivities(users, creater, f, visibility)
    ensures |acts| == |before| + |users|
    ensures forall k :: |before| <= k < |acts| ==> acts[k] == NewActivity(users[k - |before|], creater, f, visibility)
  {
    forall k | |before| <= k < |acts|
      ensures acts[k] == NewActivity(users[k - |before|], creater, f, visibility)
    {
      assert acts[k] == BulkActivities(users, creater, f, visibility)[k - |before|];
    }
  }

  /** super_admin_create_bulk_activity: visible activities, for any existing users. */
  method SuperAdminCreateBulkActivity(s: Store, requester: UserId, sub: BulkSubmission)
    returns (s': Store, errors: set<BulkField>)
    ensures errors != {} <==> CleanBulk(SuperAdminBulkActivityForm, s, sub).Err?
    ensures errors != {} ==> s' == s && errors == CleanBulk(SuperAdminBulkActivityForm, s, sub).error
    ensures errors == {} ==>
      && CleanBulk(SuperAdminBulkActivityForm, s, sub).Ok?
      && s'.activities == s.activities + BulkActivities(CleanBulk(SuperAdminBulkActivityForm, s, sub).value.users, requester,
                                                        CleanBulk(SuperAdminBulkActivityForm, s, sub).value.fields, true)
    ensures errors == {} ==>
      && (forall u: UserId :: u in sub.users ==>
            exists k :: |s.activities| <= k < |s'.activities| && s'.activities[k].user == u)
      && (forall k :: |s.activities| <= k < |s'.activities| ==>
            && s'.activities[k].user in sub.users
            && s'.activities[k].title == sub.title && s'.activities[k].body == sub.body
            && s'.activities[k].startDate == sub.startDate && s'.activities[k].endDate == sub.endDate
            && s'.activities[k].sensitivity == sub.sensitivity && !s'.activities[k].isCompleted)
    ensures s' == s.(activities := s'.activities)
    ensures |s'.activities| >= |s.activities| && s'.activities[..|s.activities|] == s.activities
    ensures forall k :: |s.activities| <= k < |s'.activities| ==>
      s'.activities[k].visibility && s'.activities[k].creater == requester && s'.activities[k].user < |s.users|
  {
    s', errors := CreateBulk(SuperAdminBulkActivityForm, true, s, requester, sub);
    if CleanBulk(SuperAdminBulkActivityForm, s, sub).Ok? {
      var d := CleanBulk(SuperAdminBulkActivityForm, s, sub).value;
      NewActivitiesAreTheCreated(SuperAdminBulkActivityForm, true, s, requester, sub, d, s'.activities);
    }
  }

  /** manager_create_bulk_activity: hidden activities, only for the manager's approved employees. */
  method ManagerCreateBulkActivity(s: Store, requester: UserId, sub: BulkSubmission)
    returns (s': Store, errors: set<BulkField>)
    ensures errors != {} <==> CleanBulk(ManagerBulkActivityForm(Some(requester)), s, sub).Err?
    ensures errors != {} ==> s' == s && errors == CleanBulk(ManagerBulkActivityForm(Some(requester)), s, sub).error
    ensures errors == {} ==>
      && CleanBulk(ManagerBulkActivityForm(Some(requester)), s, sub).Ok?
      && s'.activities == s.activities + BulkActivities(CleanBulk(ManagerBulkActivityForm(Some(requester)), s, sub).value.users, requester,
                                                        CleanBulk(ManagerBulkActivityForm(Some(requester)), s, sub).value.fields, false)
    ensures errors == {} ==>
      && (forall u: UserId :: u in sub.users ==>
            exists k :: |s.activities| <= k < |s'.activities| && s'.activities[k].user == u)
      && (forall k :: |s.activities| <= k < |s'.activities| ==>
            && s'.activities[k].user in sub.users
            && s'.activities[k].title == sub.title && s'.activities[k].body == sub.body
            && s'.activities[k].startDate == sub.startDate && s'.activities[k].endDate == sub.endDate
            && s'.activities[k].sensitivity == sub.sensitivity && !s'.activities[k].isCompleted)
    ensures s' == s.(activities := s'.activities)
    ensures |s'.activities| >= |s.activities| && s'.activities[..|s.activities|] == s.activities
    ensures forall k :: |s.activities| <= k < |s'.activities| ==>
      && !s'.activities[k].visibility
      && s'.activities[k].creater == requester
      && s'.activities[k].user < |s.users|
      && s.users[s'.activities[k].user].manager == Some(requester)
      && s.users[s'.activities[k].user].userType == EmployeeCode
      && HasApprovedProfile(s, s'.activities[k].user)
  {
    var form := ManagerBulkActivityForm(Some(requester));
    s', errors := CreateBulk(form, false, s, requester, sub);
    if CleanBulk(form, s, sub).Ok? {
      var d := CleanBulk(form, s, sub).value;
      NewActivitiesAreTheCreated(form, false, s, requester, sub, d, s'.activities);
    }
  }

  // ---- completion --------------------------------------------------------------------

  /** form_valid of the completion views: the posted is_completed is overwritten with true. */
  function Complete(a: Activity, posted: bool): Activity
  {
    a.(isCompleted := posted).(isCompleted := true)
  }

  /** Completion ignores what was posted, changes nothing but is_completed, and is idempotent. */
  lemma CompletionForced(a: Activity, posted: bool, again: bool)
    ensures Complete(a, posted).isCompleted
    ensures Complete(a, posted) == Complete(a, !posted)
    ensures Complete(a, posted).(isCompleted := a.isCompleted) == a
    ensures Complete(Complete(a, posted), again) == Complete(a, posted)
  {
  }

  /**
   * A POST to one of the two completion views: the guard chain decides
   * first; once it passes, the activity exists, belongs to the requester,
   * and only its is_completed changes.
   */
  method CompletionRequest(e: Endpoint, q: Request, posted: bool) returns (v: Verdict, s': Store)
    requires e == EmployeeActivityUpdate || e == ManagerMyActivityUpdate
    ensures v == FirstFailure(Guards(e), q)
    ensures v != Pass ==> s' == q.store
    ensures v == Pass ==>
      && q.pk < |q.store.activities|
      && q.requester == Member(q.store.activities[q.pk].user)
      && s' == q.store.(activities := q.store.activities[q.pk := Complete(q.store.activities[q.pk], posted)])
      && s'.activities[q.pk].isCompleted
  {
    v := FirstFailure(Guards(e), q);
    if v != Pass {
      return v, q.store;
    }
    if e == EmployeeActivityUpdate {
      EmployeeCompletionGate(q);
    } else {
      ManagerCompletionGate(q);
    }
    var a := q.store.activities[q.pk];
    s' := q.store.(activities := q.store.activities[q.pk := Complete(a, posted)]);
  }
}
