/**
 * The profile views that write: EmployeeProfileCreateView (the profile is
 * attached to the requester in form_valid) and the two update views, which
 * save ProfileEmployeeForm or ProfileUpdateForm onto an existing profile.
 */
module ProfileViews {
  import opened Wrappers
  import opened Models
  import opened Mixins
  import opened Forms

  /** A new, unsaved Profile instance: its fields at their defaults, status pending. */
  function BlankProfile(user: UserId): Profile
  {
    Profile(user, "", "", "", "", "", "", DefaultStatus)
  }

  /**
   * The form is invalid; or saving fails on the one-to-one user column
   * because the requester already has a profile (the form does not check
   * the excluded user field); or the profile was created at index pk.
   */
  datatype CreateOutcome = CreateInvalid(errors: set<ProfileField>) | DuplicateProfile | ProfileCreated(store: Store, pk: ProfileId)

  function CreateProfile(s: Store, requester: UserId, v: ProfileInput): CreateOutcome
  {
    match CleanProfile(ProfileEmployeeForm, s, None, v)
    case Err(errors) => CreateInvalid(errors)
    case Ok(_) =>
      if ProfileStatus(s, requester).Some? then DuplicateProfile
      else ProfileCreated(
        s.(profiles := s.profiles + [ApplyProfileForm(ProfileEmployeeForm, BlankProfile(requester), v)]),
        |s.profiles|)
  }

  /**
   * A created profile belongs to the requester, holds the posted values,
   * waits for review (status '1'), so it passes neither the approved nor
   * the rejected guard, and the one-profile-per-user rule still holds.
   */
  lemma CreatedProfileIsPending(s: Store, requester: UserId, v: ProfileInput)
    requires OneProfilePerUser(s.profiles)
    requires requester < |s.users|
    ensures CreateProfile(s, requester, v).ProfileCreated? <==>
      CleanProfile(ProfileEmployeeForm, s, None, v).Ok? && ProfileStatus(s, requester).None?
    ensures CreateProfile(s, requester, v).ProfileCreated? ==>
      var s' := CreateProfile(s, requester, v).store;
      var p := CreateProfile(s, requester, v).pk;
      && s' == s.(profiles := s'.profiles)
      && s'.profiles[..|s.profiles|] == s.profiles
      && p == |s.profiles| && p < |s'.profiles|
      && s'.profiles[p].user == requester
      && s'.profiles[p].status == PendingStatus
      && s'.profiles[p].phoneNumber == v.phoneNumber
      && s'.profiles[p].nationalCode == v.nationalCode
      && OneProfilePerUser(s'.profiles)
      && ProfileStatus(s', requester) == Some(PendingStatus)
      && CheckApprovedProfile(s', Member(requester)) == Denied(ProfileNotApproved)
      && CheckDisApprovedProfile(s', Member(requester)) == Denied(ProfileNotRejected)
  {
    if CreateProfile(s, requester, v).ProfileCreated? {
      var p := ApplyProfileForm(ProfileEmployeeForm, BlankProfile(requester), v);
      assert p.user == requester && p.status == PendingStatus;
      AppendOwnProfile(s, p);
    }
  }

  /** Appending a profile for a user who has none keeps one profile per user and makes it theirs. */
  lemma AppendOwnProfile(s: Store, p: Profile)
    requires OneProfilePerUser(s.profiles)
    requires ProfileStatus(s, p.user).None?
    ensures OneProfilePerUser(s.profiles + [p])
    ensures ProfileStatus(s.(profiles := s.profiles + [p]), p.user) == Some(p.status)
  {
    var s' := s.(profiles := s.profiles + [p]);
    var n := |s.profiles|;
    assert s'.profiles[n] == p;
    assert forall j :: 0 <= j < n ==> s'.profiles[j] == s.profiles[j];
    ProfileOfOwner(s', n);
  }

  /** The profile does not exist (a 404); the form is invalid; or the profile was saved. */
  datatype UpdateOutcome = NotFound | UpdateInvalid(errors: set<ProfileField>) | Updated(store: Store)

  /** EmployeeProfileUpdateView and SuperAdminProfileUpdateView saving their form onto profile pk. */
  function UpdateProfile(f: ProfileForm, s: Store, pk: ProfileId, v: ProfileInput): UpdateOutcome
  {
    if pk >= |s.profiles| then NotFound
    else match CleanProfile(f, s, Some(pk), v)
      case Err(errors) => UpdateInvalid(errors)
      case Ok(_) => Updated(s.(profiles := s.profiles[pk := ApplyProfileForm(f, s.profiles[pk], v)]))
  }

  /**
   * An update rewrites one profile, never its user, so the one-profile-per-user
   * rule still holds; the employee's form keeps the status, so a rejected
   * profile stays rejected after the employee corrects it, while the
   * super-admin's form sets the status it was given.
   */
  lemma UpdateKeepsOwnerAndRule(f: ProfileForm, s: Store, pk: ProfileId, v: ProfileInput)
    requires OneProfilePerUser(s.profiles)
    ensures UpdateProfile(f, s, pk, v) == NotFound <==> pk >= |s.profiles|
    ensures UpdateProfile(f, s, pk, v).Updated? ==>
      var s' := UpdateProfile(f, s, pk, v).store;
      && s' == s.(profiles := s'.profiles)
      && |s'.profiles| == |s.profiles|
      && (forall j :: 0 <= j < |s.profiles| && j != pk ==> s'.profiles[j] == s.profiles[j])
      && s'.profiles[pk].user == s.profiles[pk].user
      && OneProfilePerUser(s'.profiles)
      && (f == ProfileEmployeeForm ==> s'.profiles[pk].status == s.profiles[pk].status)
      && (f == ProfileUpdateForm ==> s'.profiles[pk].status == v.status && v.status in StatusChoices)
  {
    if UpdateProfile(f, s, pk, v).Updated? {
      ProfileFormsFrame(s.profiles[pk], v);
    }
  }
}
