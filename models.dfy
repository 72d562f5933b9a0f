/**
 * The records of the application (CustomUser, Profile, Conversation,
 * Message, Activity), their choice codes and defaults, the field
 * validators, and the datastore as five tables.
 *
 * A record's primary key is its position in its table.  The operations of
 * this model only append rows or rewrite them in place, never delete them.
 */
module Models {
  import opened Wrappers
  import opened Calendar

  type UserId = nat
  type ProfileId = nat
  type ActivityId = nat
  type ConversationId = nat

  // CustomUser.USER_TYPE_CHOICES: super-admin, manager, employee.
  const SuperAdminCode: string := "1"
  const ManagerCode: string := "2"
  const EmployeeCode: string := "3"
  const UserTypeChoices: seq<string> := [SuperAdminCode, ManagerCode, EmployeeCode]
  const DefaultUserType: string := SuperAdminCode

  // Profile.STATUS_CHOICES: pending review, approved, rejected.
  const PendingStatus: string := "1"
  const ApprovedStatus: string := "2"
  const RejectedStatus: string := "3"
  const StatusChoices: seq<string> := [PendingStatus, ApprovedStatus, RejectedStatus]
  const DefaultStatus: string := PendingStatus

  // Activity.SENSITIVITY_CHOICES: low, medium, high.
  const LowSensitivity: string := "1"
  const MediumSensitivity: string := "2"
  const HighSensitivity: string := "3"
  const SensitivityChoices: seq<string> := [LowSensitivity, MediumSensitivity, HighSensitivity]

  const DefaultIsCompleted: bool := false
  const DefaultSeen: bool := false

  /** CustomUser; the credentials are left out. */
  datatype User = User(
    username: string,
    firstName: string,
    lastName: string,
    userType: string,
    manager: Option<UserId>)

  /** Profile; the two image fields are left out. */
  datatype Profile = Profile(
    user: UserId,
    phoneNumber: string,
    address: string,
    phoneNumber1: string,
    phoneNumber2: string,
    nationalCode: string,
    birthdate: string,
    status: string)

  /** Conversation (a ticket): its set of participants. */
  datatype Conversation = Conversation(users: set<UserId>)

  /**
   * Message; the attachment is left out.  created_at is declared with
   * auto_now, so Django stamps it on every save, not only the first.
   */
  datatype Message = Message(user: UserId, conversation: ConversationId, body: string, createdAt: DateTime, seen: bool)

  /** Activity; the dates are Persian-calendar strings as stored. */
  datatype Activity = Activity(
    user: UserId,
    creater: UserId,
    title: string,
    body: string,
    startDate: string,
    startTime: TimeOfDay,
    endDate: string,
    endTime: TimeOfDay,
    sensitivity: string,
    isCompleted: bool,
    visibility: bool)

  datatype Store = Store(
    users: seq<User>,
    profiles: seq<Profile>,
    activities: seq<Activity>,
    conversations: seq<Conversation>,
    messages: seq<Message>)

  /** u is the primary key of a user row. */
  predicate IsUser(s: Store, u: UserId)
  {
    u < |s.users|
  }

  /** A user created without an explicit user_type (the model field's defaults). */
  function NewUser(username: string, firstName: string, lastName: string): User
  {
    User(username, firstName, lastName, DefaultUserType, None)
  }

  /** A message as add_chat saves it: its author and conversation set, seen left at its default. */
  function NewMessage(author: UserId, conversation: ConversationId, body: string, now: DateTime): Message
  {
    Message(author, conversation, body, now, DefaultSeen)
  }

  /** The user_type, status and sensitivity codes, and the defaults of new records. */
  lemma ChoicesAndDefaults(username: string, first: string, last: string, author: UserId, c: ConversationId, body: string, now: DateTime)
    ensures (set k | k in UserTypeChoices) == {"1", "2", "3"}
    ensures (set k | k in StatusChoices) == {"1", "2", "3"}
    ensures (set k | k in SensitivityChoices) == {"1", "2", "3"}
    ensures NewUser(username, first, last).userType == "1"
    ensures NewUser(username, first, last).manager == None
    ensures NewMessage(author, c, body, now).seen == false
    ensures DefaultStatus == "1" && DefaultIsCompleted == false
  {
  }

  // ---- lookups --------------------------------------------------------------

  /**
   * user.user_profile: the index of the profile whose user is u, if any.
   * The one-to-one constraint (ValidStore) makes it the only one.
   */
  function ProfileIndexOf(profiles: seq<Profile>, u: UserId): (r: Option<ProfileId>)
    ensures r.Some? ==> r.value < |profiles| && profiles[r.value].user == u
    ensures r.Some? ==> forall j :: 0 <= j < r.value ==> profiles[j].user != u
    ensures r.None? <==> forall j :: 0 <= j < |profiles| ==> profiles[j].user != u
    decreases |profiles|
  {
    if |profiles| == 0 then None
    else if profiles[0].user == u then Some(0)
    else match ProfileIndexOf(profiles[1..], u)
      case None => None
      case Some(k) => Some(k + 1)
  }

  /** The status of u's profile, or None when u has no profile. */
  function ProfileStatus(s: Store, u: UserId): (r: Option<string>)
    ensures r.Some? <==> exists j :: 0 <= j < |s.profiles| && s.profiles[j].user == u
  {
    match ProfileIndexOf(s.profiles, u)
    case None => None
    case Some(k) => Some(s.profiles[k].status)
  }

  /** user_profile__status='2': u has a profile and it is approved. */
  predicate HasApprovedProfile(s: Store, u: UserId)
  {
    ProfileStatus(s, u) == Some(ApprovedStatus)
  }

  /** At most one profile per user (Profile.user is a OneToOneField). */
  predicate OneProfilePerUser(profiles: seq<Profile>)
  {
    forall i, j :: 0 <= i < j < |profiles| ==> profiles[i].user != profiles[j].user
  }

  lemma ProfileOfOwner(s: Store, p: ProfileId)
    requires OneProfilePerUser(s.profiles)
    requires p < |s.profiles|
    ensures ProfileIndexOf(s.profiles, s.profiles[p].user) == Some(p)
  {
  }

  /** Every foreign key refers to an existing row, and the one-to-one constraint holds. */
  predicate ValidStore(s: Store)
  {
    && OneProfilePerUser(s.profiles)
    && (forall i :: 0 <= i < |s.users| && s.users[i].manager.Some? ==> s.users[i].manager.value < |s.users|)
    && (forall i :: 0 <= i < |s.profiles| ==> s.profiles[i].user < |s.users|)
    && (forall i :: 0 <= i < |s.activities| ==>
          s.activities[i].user < |s.users| && s.activities[i].creater < |s.users|)
    && (forall i :: 0 <= i < |s.conversations| ==>
          forall u :: u in s.conversations[i].users ==> u < |s.users|)
    && (forall i :: 0 <= i < |s.messages| ==>
          s.messages[i].user < |s.users| && s.messages[i].conversation < |s.conversations|)
  }

  // ---- field validation -------------------------------------------------------

  predicate IsDigit(c: char)
  {
    '0' <= c <= '9'
  }

  predicate AllDigits(v: string)
  {
    forall i :: 0 <= i < |v| ==> IsDigit(v[i])
  }

  /**
   * RegexValidator(r'^\d{11}$') on the three phone fields: exactly eleven
   * digits.  The leading 0 that the error message asks for is not checked.
   */
  predicate PhoneValid(v: string)
  {
    |v| == 11 && AllDigits(v)
  }

  lemma PhoneValidIff(v: string)
    ensures PhoneValid(v) <==> |v| == 11 && forall i :: 0 <= i < |v| ==> '0' <= v[i] <= '9'
    ensures PhoneValid("19123456789") && !PhoneValid("0912345678")
  {
  }

  /** limit_choices_to={'user_type': '2'}: the users that may be chosen as a manager. */
  function ManagerChoices(s: Store): set<UserId>
  {
    set u | 0 <= u < |s.users| && s.users[u].userType == ManagerCode
  }
}
