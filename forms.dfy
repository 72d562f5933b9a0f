/**
 * The forms whose logic matters: the two bulk-activity forms (which users
 * may be picked, and how a submission is cleaned) and the two profile forms
 * (which fields each may set, and their validators).  Widget styling is
 * left out.
 */
module Forms {
  import opened Wrappers
  import opened Calendar
  import opened Models
  import opened NationalCode

  // ---- the bulk-activity forms -------------------------------------------------

  /** SuperAdminBulkActivityForm, or ManagerBulkActivityForm built with the `user` keyword (or without it). */
  datatype BulkForm = SuperAdminBulkActivityForm | ManagerBulkActivityForm(user: Option<UserId>)

  /** The queryset of the form's `users` field. */
  function Candidates(f: BulkForm, s: Store): set<UserId>
  {
    match f
    case SuperAdminBulkActivityForm => set u | 0 <= u < |s.users| && IsUser(s, u)
    case ManagerBulkActivityForm(user) =>
      if user.None? then {}
      else set u | 0 <= u < |s.users| && s.users[u].manager == user &&
                   s.users[u].userType == EmployeeCode && HasApprovedProfile(s, u)
  }

  /** The manager form offers exactly the manager's employees whose profile is approved. */
  lemma ManagerCandidatesAreApprovedEmployees(s: Store, m: UserId, u: UserId)
    ensures u in Candidates(ManagerBulkActivityForm(Some(m)), s) <==>
      && u < |s.users|
      && s.users[u].manager == Some(m)
      && s.users[u].userType == EmployeeCode
      && ProfileStatus(s, u) == Some(ApprovedStatus)
    ensures Candidates(ManagerBulkActivityForm(None), s) == {}
    ensures u in Candidates(SuperAdminBulkActivityForm, s) <==> u < |s.users|
  {
  }

  datatype BulkField =
    UsersField | TitleField | BodyField | StartDateField | StartTimeField | EndDateField | EndTimeField | SensitivityField

  /** What the browser posts; a time that does not parse arrives as None. */
  datatype BulkSubmission = BulkSubmission(
    users: seq<nat>,
    title: string,
    body: string,
    startDate: string,
    startTime: Option<TimeOfDay>,
    endDate: string,
    endTime: Option<TimeOfDay>,
    sensitivity: string)

  /** The fields both bulk forms share, once cleaned. */
  datatype ActivityFields = ActivityFields(
    title: string,
    body: string,
    startDate: string,
    startTime: TimeOfDay,
    endDate: string,
    endTime: TimeOfDay,
    sensitivity: string)

  /** cleaned_data: the selected users in primary-key order, and the shared fields. */
  datatype BulkData = BulkData(users: seq<UserId>, fields: ActivityFields)

  /** The users below n that are in chosen, in increasing order (the queryset filter(pk__in=...)). */
  function Ascending(n: nat, chosen: set<nat>): seq<nat>
    decreases n
  {
    if n == 0 then [] else Ascending(n - 1, chosen) + (if n - 1 in chosen then [n - 1] else [])
  }

  predicate StrictlyIncreasing(xs: seq<nat>)
  {
    forall i, j :: 0 <= i < j < |xs| ==> xs[i] < xs[j]
  }

  lemma {:induction false} AscendingSpec(n: nat, chosen: set<nat>)
    ensures forall x :: x in Ascending(n, chosen) <==> x < n && x in chosen
    ensures forall i :: 0 <= i < |Ascending(n, chosen)| ==> Ascending(n, chosen)[i] < n
    ensures StrictlyIncreasing(Ascending(n, chosen))
    decreases n
  {
    if n > 0 {
      AscendingSpec(n - 1, chosen);
    }
  }

  const AllBulkFields: set<BulkField> :=
    {UsersField, TitleField, BodyField, StartDateField, StartTimeField, EndDateField, EndTimeField, SensitivityField}

  /** Each bulk field's own rules: required, max_length, the queryset and the choices. */
  predicate BulkFieldInvalid(f: BulkForm, s: Store, sub: BulkSubmission, field: BulkField)
  {
    match field
    case UsersField => |sub.users| == 0 || exists i :: 0 <= i < |sub.users| && sub.users[i] !in Candidates(f, s)
    case TitleField => |sub.title| == 0 || |sub.title| > 1000
    case BodyField => |sub.body| == 0
    case StartDateField => |sub.startDate| == 0
    case StartTimeField => sub.startTime.None?
    case EndDateField => |sub.endDate| == 0
    case EndTimeField => sub.endTime.None?
    case SensitivityField => sub.sensitivity !in SensitivityChoices
  }

  /** The invalid fields of a submission. */
  function BulkErrors(f: BulkForm, s: Store, sub: BulkSubmission): set<BulkField>
  {
    set field | field in AllBulkFields && BulkFieldInvalid(f, s, sub, field)
  }

  /** Which fields BulkErrors reports, field by field, and when it reports none. */
  lemma BulkErrorsSpec(f: BulkForm, s: Store, sub: BulkSubmission)
    ensures UsersField in BulkErrors(f, s, sub) <==>
      |sub.users| == 0 || exists i :: 0 <= i < |sub.users| && sub.users[i] !in Candidates(f, s)
    ensures TitleField in BulkErrors(f, s, sub) <==> |sub.title| == 0 || |sub.title| > 1000
    ensures BodyField in BulkErrors(f, s, sub) <==> |sub.body| == 0
    ensures StartDateField in BulkErrors(f, s, sub) <==> |sub.startDate| == 0
    ensures StartTimeField in BulkErrors(f, s, sub) <==> sub.startTime.None?
    ensures EndDateField in BulkErrors(f, s, sub) <==> |sub.endDate| == 0
    ensures EndTimeField in BulkErrors(f, s, sub) <==> sub.endTime.None?
    ensures SensitivityField in BulkErrors(f, s, sub) <==> sub.sensitivity !in SensitivityChoices
    ensures BulkErrors(f, s, sub) == {} <==>
      && |sub.users| > 0
      && (forall i :: 0 <= i < |sub.users| ==> sub.users[i] in Candidates(f, s))
      && 0 < |sub.title| <= 1000
      && |sub.body| > 0
      && |sub.startDate| > 0 && sub.startTime.Some?
      && |sub.endDate| > 0 && sub.endTime.Some?
      && sub.sensitivity in SensitivityChoices
  {
    var e := BulkErrors(f, s, sub);
    assert UsersField in e <==> BulkFieldInvalid(f, s, sub, UsersField);
    assert TitleField in e <==> BulkFieldInvalid(f, s, sub, TitleField);
    assert BodyField in e <==> BulkFieldInvalid(f, s, sub, BodyField);
    assert StartDateField in e <==> BulkFieldInvalid(f, s, sub, StartDateField);
    assert StartTimeField in e <==> BulkFieldInvalid(f, s, sub, StartTimeField);
    assert EndDateField in e <==> BulkFieldInvalid(f, s, sub, EndDateField);
    assert EndTimeField in e <==> BulkFieldInvalid(f, s, sub, EndTimeField);
    assert SensitivityField in e <==> BulkFieldInvalid(f, s, sub, SensitivityField);
  }

  /**
   * form.is_valid() and form.cleaned_data, or form.errors.  A submission is
   * valid exactly when every field passes; each invalid field is reported.
   */
  function CleanBulk(f: BulkForm, s: Store, sub: BulkSubmission): (r: Result<BulkData, set<BulkField>>)
    ensures r.Ok? <==>
      && |sub.users| > 0
      && (forall i :: 0 <= i < |sub.users| ==> sub.users[i] in Candidates(f, s))
      && 0 < |sub.title| <= 1000
      && |sub.body| > 0
      && |sub.startDate| > 0 && sub.startTime.Some?
      && |sub.endDate| > 0 && sub.endTime.Some?
      && sub.sensitivity in SensitivityChoices
    ensures r.Err? ==> r.error != {}
    ensures r.Err? ==>
      && (UsersField in r.error <==>
            |sub.users| == 0 || exists i :: 0 <= i < |sub.users| && sub.users[i] !in Candidates(f, s))
      && (TitleField in r.error <==> |sub.title| == 0 || |sub.title| > 1000)
      && (BodyField in r.error <==> |sub.body| == 0)
      && (StartDateField in r.error <==> |sub.startDate| == 0)
      && (StartTimeField in r.error <==> sub.startTime.None?)
      && (EndDateField in r.error <==> |sub.endDate| == 0)
      && (EndTimeField in r.error <==> sub.endTime.None?)
      && (SensitivityField in r.error <==> sub.sensitivity !in SensitivityChoices)
    ensures r.Ok? ==>
      && |r.value.users| > 0
      && StrictlyIncreasing(r.value.users)
      && (forall u :: u in r.value.users <==> u in sub.users)
      && (forall u :: u in r.value.users ==> u in Candidates(f, s))
      && r.value.fields == ActivityFields(sub.title, sub.body, sub.startDate, sub.startTime.value,
                                          sub.endDate, sub.endTime.value, sub.sensitivity)
      && r.value.fields.sensitivity in SensitivityChoices
      && 0 < |r.value.fields.title| <= 1000
  {
    var errors := BulkErrors(f, s, sub);
    BulkErrorsSpec(f, s, sub);
    if errors != {} then Err(errors)
    else
      AscendingSpec(|s.users|, set u | u in sub.users);
      assert sub.users[0] in Candidates(f, s);
      assert sub.users[0] in Ascending(|s.users|, set u | u in sub.users);
      Ok(BulkData(
        Ascending(|s.users|, set u | u in sub.users),
        ActivityFields(sub.title, sub.body, sub.startDate, sub.startTime.value,
                       sub.endDate, sub.endTime.value, sub.sensitivity)))
  }

  /** The two bulk forms clean every field but `users` identically. */
  lemma BulkFormsShareFields(s: Store, m: Option<UserId>, sub: BulkSubmission)
    requires CleanBulk(SuperAdminBulkActivityForm, s, sub).Ok?
    requires CleanBulk(ManagerBulkActivityForm(m), s, sub).Ok?
    ensures CleanBulk(SuperAdminBulkActivityForm, s, sub).value == CleanBulk(ManagerBulkActivityForm(m), s, sub).value
  {
  }

  /** A manager form built without a user accepts no submission: its users field has no choices. */
  lemma ManagerFormWithoutUserRejects(s: Store, sub: BulkSubmission)
    ensures CleanBulk(ManagerBulkActivityForm(None), s, sub).Err?
    ensures UsersField in CleanBulk(ManagerBulkActivityForm(None), s, sub).error
  {
    if |sub.users| > 0 {
      assert sub.users[0] !in Candidates(ManagerBulkActivityForm(None), s);
    }
  }

  // ---- the profile forms -----------------------------------------------------------

  /** ProfileEmployeeForm (used by employees) and ProfileUpdateForm (used by the super-admin). */
  datatype ProfileForm = ProfileEmployeeForm | ProfileUpdateForm

  datatype ProfileField =
    UserField | PhoneNumberField | AddressField | PhoneNumber1Field | PhoneNumber2Field
    | NationalCodeField | BirthdateField | StatusField

  const AllProfileFields: set<ProfileField> :=
    {UserField, PhoneNumberField, AddressField, PhoneNumber1Field, PhoneNumber2Field,
     NationalCodeField, BirthdateField, StatusField}

  /** Meta.exclude of each form. */
  function Excludes(f: ProfileForm): set<ProfileField>
  {
    match f
    case ProfileEmployeeForm => {UserField, StatusField}
    case ProfileUpdateForm => {UserField}
  }

  /** The fields a form shows and saves; Profile.user is also editable=False. */
  function FormFields(f: ProfileForm): set<ProfileField>
  {
    AllProfileFields - {UserField} - Excludes(f)
  }

  /** What a profile form posts (the image fields are left out). */
  datatype ProfileInput = ProfileInput(
    phoneNumber: string,
    address: string,
    phoneNumber1: string,
    phoneNumber2: string,
    nationalCode: string,
    birthdate: string,
    status: string)

  /** Saving a form onto a profile: a field the form has takes the posted value, any other keeps its own. */
  function ApplyProfileForm(f: ProfileForm, p: Profile, v: ProfileInput): Profile
  {
    var fs := FormFields(f);
    Profile(
      p.user,
      if PhoneNumberField in fs then v.phoneNumber else p.phoneNumber,
      if AddressField in fs then v.address else p.address,
      if PhoneNumber1Field in fs then v.phoneNumber1 else p.phoneNumber1,
      if PhoneNumber2Field in fs then v.phoneNumber2 else p.phoneNumber2,
      if NationalCodeField in fs then v.nationalCode else p.nationalCode,
      if BirthdateField in fs then v.birthdate else p.birthdate,
      if StatusField in fs then v.status else p.status)
  }

  /** The employee form sets neither user nor status; the super-admin form sets status but not user. */
  lemma ProfileFormsFrame(p: Profile, v: ProfileInput)
    ensures ApplyProfileForm(ProfileEmployeeForm, p, v).user == p.user
    ensures ApplyProfileForm(ProfileEmployeeForm, p, v).status == p.status
    ensures ApplyProfileForm(ProfileEmployeeForm, p, v).nationalCode == v.nationalCode
    ensures ApplyProfileForm(ProfileUpdateForm, p, v).user == p.user
    ensures ApplyProfileForm(ProfileUpdateForm, p, v).status == v.status
    ensures ApplyProfileForm(ProfileUpdateForm, p, v) == ApplyProfileForm(ProfileEmployeeForm, p, v).(status := v.status)
  {
  }

  /** Another profile than `instance` already holds this value in the given field (unique=True). */
  predicate TakenBy(s: Store, instance: Option<ProfileId>, field: ProfileField, value: string)
  {
    exists j :: 0 <= j < |s.profiles| && Some(j) != instance &&
      (if field == PhoneNumberField then s.profiles[j].phoneNumber else s.profiles[j].nationalCode) == value
  }

  /** Each profile field's own rules: the validators, max_length, unique=True and the choices. */
  predicate ProfileFieldInvalid(s: Store, instance: Option<ProfileId>, v: ProfileInput, field: ProfileField)
  {
    match field
    case UserField => false
    case PhoneNumberField => !PhoneValid(v.phoneNumber) || TakenBy(s, instance, PhoneNumberField, v.phoneNumber)
    case AddressField => |v.address| == 0 || |v.address| > 700
    case PhoneNumber1Field => !PhoneValid(v.phoneNumber1)
    case PhoneNumber2Field => !PhoneValid(v.phoneNumber2)
    case NationalCodeField =>
      ValidateNationalCode(v.nationalCode) != Accepted || TakenBy(s, instance, NationalCodeField, v.nationalCode)
    case BirthdateField => |v.birthdate| == 0 || |v.birthdate| > 10
    case StatusField => v.status !in StatusChoices
  }

  /** The invalid fields of a posted profile; only the form's own fields are validated. */
  function ProfileErrors(f: ProfileForm, s: Store, instance: Option<ProfileId>, v: ProfileInput): set<ProfileField>
  {
    set field | field in FormFields(f) && ProfileFieldInvalid(s, instance, v, field)
  }

  /** Which fields ProfileErrors reports, field by field. */
  lemma ProfileErrorsSpec(f: ProfileForm, s: Store, instance: Option<ProfileId>, v: ProfileInput)
    ensures ProfileErrors(f, s, instance, v) <= FormFields(f)
    ensures PhoneNumberField in ProfileErrors(f, s, instance, v) <==>
      !PhoneValid(v.phoneNumber) || TakenBy(s, instance, PhoneNumberField, v.phoneNumber)
    ensures AddressField in ProfileErrors(f, s, instance, v) <==> |v.address| == 0 || |v.address| > 700
    ensures PhoneNumber1Field in ProfileErrors(f, s, instance, v) <==> !PhoneValid(v.phoneNumber1)
    ensures PhoneNumber2Field in ProfileErrors(f, s, instance, v) <==> !PhoneValid(v.phoneNumber2)
    ensures NationalCodeField in ProfileErrors(f, s, instance, v) <==>
      ValidateNationalCode(v.nationalCode) != Accepted || TakenBy(s, instance, NationalCodeField, v.nationalCode)
    ensures BirthdateField in ProfileErrors(f, s, instance, v) <==> |v.birthdate| == 0 || |v.birthdate| > 10
    ensures StatusField in ProfileErrors(f, s, instance, v) <==> f == ProfileUpdateForm && v.status !in StatusChoices
    ensures UserField !in ProfileErrors(f, s, instance, v)
    ensures ProfileErrors(f, s, instance, v) == {} <==>
      && !ProfileFieldInvalid(s, instance, v, PhoneNumberField)
      && !ProfileFieldInvalid(s, instance, v, AddressField)
      && !ProfileFieldInvalid(s, instance, v, PhoneNumber1Field)
      && !ProfileFieldInvalid(s, instance, v, PhoneNumber2Field)
      && !ProfileFieldInvalid(s, instance, v, NationalCodeField)
      && !ProfileFieldInvalid(s, instance, v, BirthdateField)
      && (f == ProfileUpdateForm ==> !ProfileFieldInvalid(s, instance, v, StatusField))
  {
    var e := ProfileErrors(f, s, instance, v);
    var fs := FormFields(f);
    assert PhoneNumberField in fs && AddressField in fs && PhoneNumber1Field in fs && PhoneNumber2Field in fs;
    assert NationalCodeField in fs && BirthdateField in fs && UserField !in fs;
    assert StatusField in fs <==> f == ProfileUpdateForm;
    assert PhoneNumberField in e <==> ProfileFieldInvalid(s, instance, v, PhoneNumberField);
    assert AddressField in e <==> ProfileFieldInvalid(s, instance, v, AddressField);
    assert PhoneNumber1Field in e <==> ProfileFieldInvalid(s, instance, v, PhoneNumber1Field);
    assert PhoneNumber2Field in e <==> ProfileFieldInvalid(s, instance, v, PhoneNumber2Field);
    assert NationalCodeField in e <==> ProfileFieldInvalid(s, instance, v, NationalCodeField);
    assert BirthdateField in e <==> ProfileFieldInvalid(s, instance, v, BirthdateField);
    assert StatusField in e <==> StatusField in fs && ProfileFieldInvalid(s, instance, v, StatusField);
  }

  /**
   * form.is_valid() for a profile form bound to `instance` (None when
   * creating): valid exactly when every field the form shows passes its
   * validators and no other profile holds the same phone number or
   * national code.
   */
  function CleanProfile(f: ProfileForm, s: Store, instance: Option<ProfileId>, v: ProfileInput): (r: Result<ProfileInput, set<ProfileField>>)
    ensures r.Ok? <==>
      && PhoneValid(v.phoneNumber) && !TakenBy(s, instance, PhoneNumberField, v.phoneNumber)
      && 0 < |v.address| <= 700
      && PhoneValid(v.phoneNumber1) && PhoneValid(v.phoneNumber2)
      && ValidateNationalCode(v.nationalCode) == Accepted && !TakenBy(s, instance, NationalCodeField, v.nationalCode)
      && 0 < |v.birthdate| <= 10
      && (f == ProfileUpdateForm ==> v.status in StatusChoices)
    ensures r.Err? ==> r.error != {} && r.error <= FormFields(f)
    ensures r.Err? ==>
      && (PhoneNumberField in r.error <==>
            !PhoneValid(v.phoneNumber) || TakenBy(s, instance, PhoneNumberField, v.phoneNumber))
      && (AddressField in r.error <==> |v.address| == 0 || |v.address| > 700)
      && (PhoneNumber1Field in r.error <==> !PhoneValid(v.phoneNumber1))
      && (PhoneNumber2Field in r.error <==> !PhoneValid(v.phoneNumber2))
      && (NationalCodeField in r.error <==>
            ValidateNationalCode(v.nationalCode) != Accepted || TakenBy(s, instance, NationalCodeField, v.nationalCode))
      && (BirthdateField in r.error <==> |v.birthdate| == 0 || |v.birthdate| > 10)
      && (StatusField in r.error <==> f == ProfileUpdateForm && v.status !in StatusChoices)
    ensures r.Ok? ==>
      && r.value == v
      && PhoneValid(v.phoneNumber) && PhoneValid(v.phoneNumber1) && PhoneValid(v.phoneNumber2)
      && 0 < |v.address| <= 700 && 0 < |v.birthdate| <= 10
      && ValidateNationalCode(v.nationalCode) == Accepted
      && (f == ProfileUpdateForm ==> v.status in StatusChoices)
      && (forall j :: 0 <= j < |s.profiles| && Some(j) != instance ==>
            s.profiles[j].phoneNumber != v.phoneNumber && s.profiles[j].nationalCode != v.nationalCode)
  {
    var errors := ProfileErrors(f, s, instance, v);
    ProfileErrorsSpec(f, s, instance, v);
    if errors != {} then Err(errors) else Ok(v)
  }

  // ---- the manager selection form -------------------------------------------------------

  /** What a POST to SuperAdminSelectManagerView leads to. */
  datatype SelectOutcome = UserNotFound | ChoiceRefused | ManagerSaved(saved: Store)

  /**
   * SuperAdminSelectManagerView saving SelectManagerForm onto user pk: an
   * unknown pk is a 404 (the UpdateView's get_object); blank is allowed, any
   * other choice must be a manager (limit_choices_to).
   */
  function SelectManager(s: Store, pk: nat, choice: Option<UserId>): SelectOutcome
  {
    if pk >= |s.users| then UserNotFound
    else if choice.Some? && choice.value !in ManagerChoices(s) then ChoiceRefused
    else ManagerSaved(s.(users := s.users[pk := s.users[pk].(manager := choice)]))
  }

  /** After a saved selection the user's manager is blank or a user of type '2', and nothing else changed. */
  lemma SelectedManagerIsManager(s: Store, pk: nat, choice: Option<UserId>)
    ensures SelectManager(s, pk, choice) == UserNotFound <==> pk >= |s.users|
    ensures SelectManager(s, pk, choice).ManagerSaved? <==>
      pk < |s.users| && (choice.None? || (choice.value < |s.users| && s.users[choice.value].userType == ManagerCode))
    ensures SelectManager(s, pk, choice).ManagerSaved? ==>
      var s' := SelectManager(s, pk, choice).saved;
      && |s'.users| == |s.users|
      && s'.users[pk].manager == choice
      && s'.users[pk] == s.users[pk].(manager := choice)
      && (forall u :: 0 <= u < |s.users| && u != pk ==> s'.users[u] == s.users[u])
      && s' == s.(users := s'.users)
  {
  }
}
