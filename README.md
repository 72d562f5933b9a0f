# HR and ticketing app: a Dafny model of its access rules and record operations

This project models the logic of a small Django HR and ticketing application. Super-admins,
managers and employees (user types `'1'`, `'2'`, `'3'`) keep user profiles and activities.
Activities are assignments with a Persian-calendar time window. Tickets are conversations
between users. The model covers:

- the access guards that run before each view: login, role, profile status, ownership,
  visibility and the activity time window;
- the guard list each view declares, and a chain evaluator that answers with the first
  failing guard;
- the record operations of the views:
  - two-party ticket find-or-create;
  - bulk activity creation;
  - forced completion;
  - role-scoped listings;
  - the dashboard counts;
  - marking messages seen;
  - unseen counts;
  - posting a message;
  - profile creation and update;
  - manager selection;
  - the login redirect;
- the national-code checksum, the choice codes and defaults, and the phone validators;
- the candidate sets of the bulk-activity forms, and the fields each profile form may set.

The datastore is a value, `Models.Store`, with five tables (users, profiles, activities,
conversations, messages). A record's primary key is its position in its table. Views that
write take a store and return the new one. Where the source loops, the model is a method
with a loop, proved against a specification function:

- the find-or-create walk;
- the bulk-create loop;
- the mark-seen loop;
- the loop that builds the unseen-count dictionary.

Guards return a `Mixins.Verdict`, which is one of:

- `Pass`;
- `Denied(reason)`, for `PermissionDenied`;
- `Missing`, when a `.get(pk=…)` or a missing reverse one-to-one raises and the request
  ends in a server error;
- `BadDate`, when the Persian→Gregorian conversion fails;
- `ToLogin`, the `login_required` / `LoginRequiredMixin` redirect.

The Persian-calendar converter (`jalali`, not part of this model) is a function-valued
parameter, `Calendar.Converter`. The clock (`now()`) is a parameter of each request; the as-written chat view takes one clock reading per save. Text
search (`icontains`) is a matcher parameter.

Both completion views check `ActivityOwnerRequiredMixin` (app/views.py:424, 644), so only the
assignee can complete an activity; the assignee's manager cannot
(`Endpoints.EmployeeCompletionGate`, `Endpoints.ManagerCompletionGate`).

Opening a chat is modelled twice. `Tickets.OpenChatAsWritten` is the code as written. Its
loop saves the unread messages newest first, and each `save()` re-stamps `created_at` with a
fresh clock reading, so the re-stamped messages end up in reverse order.
`Tickets.OpenChat` is the corrected mark-seen that the rest of the model uses (see "## Findings").

## Model

| member | source | states |
|---|---|---|
| Models.ChoicesAndDefaults | app/models.py:17-117 | user types, profile statuses and sensitivities are each exactly the codes {'1','2','3'}; a new user has type '1' and no manager; a new message is unseen; a new profile is pending ('1') and a new activity not completed |
| Models.ProfileIndexOf | app/models.py:49 | `user.user_profile`: finds the profile whose user is u if there is one, and it is the first such profile; None exactly when no profile belongs to u |
| Models.ProfileStatus | app/models.py:43-49 | a user has a profile status exactly when some profile belongs to that user |
| Models.ProfileOfOwner | app/models.py:49 | under the one-to-one constraint, the lookup from a profile's user returns that same profile |
| Models.PhoneValidIff | app/models.py:55 | the phone validator accepts exactly eleven ASCII digits; a leading 0 is not enforced, though the error text asks for one |
| NationalCode.RejectsMalformed | app/models.py:6-8 | the length error is raised exactly for inputs that are not ten digits, before any checksum |
| NationalCode.AcceptedIffCheckDigit | app/models.py:10-14 | a ten-digit code is accepted iff its last digit equals s when s < 2 and 11 − s otherwise, with s = Σ d_i·(10−i) mod 11; otherwise the checksum error is raised |
| NationalCode.CheckDigit | app/models.py:10-13 | the check digit called for by nine digits is always a single digit 0..9 |
| NationalCode.WeightedSumOfPrefix | app/models.py:11 | the weighted sum over the first n digits depends on those digits only, so the check digit is fixed by the first nine |
| NationalCode.ExactlyOneCheckDigit | app/models.py:10-14 | every nine-digit prefix has exactly one last digit that makes the code valid |
| NationalCode.DigitChar | app/models.py:10-11 | digit characters and their values convert both ways (`int(value[i])`) |
| Calendar.NotAfterIsTotalOrder | app/mixins.py:193 | the datetime comparison used by the time window is reflexive, total, antisymmetric and transitive |
| Mixins.RoleGuard | app/mixins.py:9-17 | an anonymous user is denied with "log in first" before the role test; an authenticated user passes iff the user type is in the allow-list; the only outcomes are pass and the two denials; an empty list denies everyone |
| Mixins.RoleDecoratorAgrees | app/mixins.py:20-32 | `role_required(list)` decides as the mixin with that list; with the list omitted it admits nobody |
| Mixins.ApprovedProfileGuard | app/mixins.py:35-48 | passes iff the requester is logged in and has a profile with status '2'; every failure, including a missing profile, is the "not approved" denial |
| Mixins.DisApprovedProfileGuard | app/mixins.py:51-64 | passes iff the requester's profile has status '3'; a missing profile (or an anonymous requester) is an unhandled lookup error, not a denial |
| Mixins.ApprovedAndRejectedExclusive | app/mixins.py:37-53 | no requester passes both the approved and the rejected guard |
| Mixins.PassedUserApprovedProfileGuard | app/mixins.py:157-172 | the path-user variant applies the approved-profile test to the user named by pk; an unknown pk is a lookup error |
| Mixins.OwnershipGuards | app/mixins.py:67-154 | activity owner passes iff `activity.user` is the requester; manager activity iff the assignee's manager is the requester; employee owner iff the target user's manager is the requester; profile owner iff `profile.user` is the requester; each gives a lookup error for an unknown pk |
| Mixins.AnonymousOwnsNothing | app/mixins.py:67-154 | an anonymous requester passes none of the four ownership guards |
| Mixins.VisibleActivityGuard | app/mixins.py:121-136 | the visibility guard denies exactly the existing activities whose visibility is false |
| Mixins.ActiveTimeGuard | app/mixins.py:175-217 | the time guard passes iff both dates convert and start ≤ now ≤ end; it reports an unknown pk and a failed conversion separately |
| Mixins.WindowClosedAtBothEnds | app/mixins.py:193 | the window is inclusive: its start and its end instants both pass |
| Mixins.InvertedWindowNeverPasses | app/mixins.py:193 | an activity whose end comes before its start never passes the time guard |
| Mixins.FirstFailureSpec | app/mixins.py:17 | a chain passes iff every guard passes; otherwise its verdict is that of the first failing guard, all guards before it having passed |
| Mixins.DispatchRunsViewIffChainPasses | app/mixins.py:17 | the class-based chain (`super().dispatch`) runs the handler iff all guards pass, or else answers with the first failure |
| Mixins.DeniedBeforeHandler | app/mixins.py:195 | a denied request gets the same response whatever the handler would do: the handler is never reached |
| Mixins.DecoratorsAgreeWithMixins | app/mixins.py:23-32 | stacking the function decorators decides every request exactly as the mixin chain with the same guards |
| Endpoints.AnonymousRedirectedToLogin | app/views.py:54-55 | every guarded view sends an anonymous visitor to the login page before any other check |
| Endpoints.OtherTiersDenied | app/views.py:72-73 | every guarded view refuses, with "no access", a logged-in user of another tier |
| Endpoints.UserDeleteOpenToEveryone | app/views.py:148-156 | as written, SuperAdminUserDeleteView declares no guard at all, so every request passes, anonymous ones included |
| Endpoints.IntendedGuardsCloseEveryView | app/views.py:148 | with the delete view guarded like its siblings, every non-public view turns away anonymous visitors and other tiers |
| Endpoints.EmployeeCompletionGate | app/views.py:644 | the employee completion view admits iff: logged in, type '3', assignee of the activity, activity visible, own profile approved, and now inside the window |
| Endpoints.EmployeeCompletionNeedsAssignee | app/views.py:644 | a logged-in employee who is not the assignee is refused with "not the activity owner" |
| Endpoints.EmployeeCompletionOutsideWindow | app/views.py:644 | an assignee who passes every other guard is refused by the time window's own verdict |
| Endpoints.ManagerCompletionGate | app/views.py:424 | the manager completion view admits iff: logged in, type '2', assignee, visible, and inside the window |
| Endpoints.ProfileEditOnlyWhileRejected | app/views.py:602 | an employee may edit a profile iff it is the employee's own and its status is '3' |
| Endpoints.ManagerUserDetailGate | app/views.py:379 | a manager sees a user's page iff that user is one of the manager's employees with an approved profile |
| Endpoints.ManagerActivityDetailGate | app/views.py:504 | a manager sees an activity iff its assignee is managed by that manager; visibility is not checked |
| Forms.ManagerCandidatesAreApprovedEmployees | app/forms.py:95-117 | the manager form offers exactly the manager's employees of type '3' with status '2'; with no user it offers nobody; the super-admin form offers every user |
| Forms.CleanBulk | app/forms.py:81-117 | a bulk form is valid iff: the selection is nonempty and drawn from the form's candidates; the title has 1..1000 characters; body, start date and end date are nonempty; both times parse; and the sensitivity is one of the choices. An invalid form reports exactly the failing fields. A valid one yields the selected users without repeats, and the posted title, body, dates, times and sensitivity unchanged |
| Forms.BulkErrorsSpec | app/forms.py:81-107 | each bulk field is reported invalid exactly under its own rule, and there are no errors iff every rule holds |
| Forms.BulkFormsShareFields | app/forms.py:87-107 | when both forms accept a submission, they clean it to the same data |
| Forms.ManagerFormWithoutUserRejects | app/forms.py:97 | a manager form built without a user rejects every submission on its users field |
| Forms.ProfileFormsFrame | app/forms.py:51-72 | the employee form sets neither user nor status; the super-admin form sets status but not user; otherwise the two save the same values |
| Forms.ProfileErrorsSpec | app/models.py:50-74 | each profile field the form shows is reported invalid exactly under its own validators and unique check, a field the form does not show is never reported, and there are no errors iff every shown field passes |
| Forms.CleanProfile | app/models.py:50-74 | a profile form is valid iff: the three phones are valid; the address has 1..700 characters; the national code is accepted; the birthdate has 1..10 characters; no other profile already holds the phone number or the national code; and, on the super-admin form, the status is one of the choices. An invalid form reports exactly the failing fields, all of them fields the form shows. A valid one returns the posted values |
| Forms.SelectedManagerIsManager | app/views.py:118-125 | an unknown user pk is a 404; otherwise the form saves iff the choice is blank or a type-'2' user (app/models.py:25-33), and saving changes only that user's manager |
| Tickets.FindOrCreate | app/views.py:315-327 | returns the first conversation with both users and exactly two members and creates nothing; if none exists, appends one conversation {current, selected} and changes nothing else |
| Tickets.FindOrCreateTwice | app/views.py:315-327 | for two distinct users, asking twice returns the same conversation, whose members are exactly those two; at most one conversation is created |
| Tickets.SelfTicketTwice | app/views.py:315-327 | when the requester has no two-member conversation, selecting oneself finds nothing, so each such request creates another conversation of one |
| Tickets.SelfTicketOpensFirstPair | app/views.py:315-318 | when the requester has a two-member conversation, selecting oneself creates nothing and opens the first such conversation, which the requester shares with one other user |
| Tickets.UnseenCounts | app/views.py:288-297 | the map has one entry per listed ticket, holding its number of unseen messages from others; an entry is 0 iff no such message exists |
| Tickets.CountUnseenZero | app/views.py:290-293 | an unseen count is zero iff every message in those conversations is seen or is the viewer's own |
| Tickets.BadgeSplits | app/views.py:13-18 | the unread badge is one conversation's count plus the count of the viewer's other conversations |
| Tickets.AddChat | app/views.py:798-811 | posting to an unknown conversation is a 404; an invalid post changes nothing; a valid one appends one unseen message by the author, stamped now |
| Tickets.AddChatCounts | app/views.py:798-811 | a new message adds one to every other reader's count for its conversation and nothing to its author's |
| Tickets.OpenChat | app/views.py:723-735 | corrected mark-seen: an unknown conversation is an error; otherwise the result is the store with every message of that conversation from someone else marked seen, creation times kept |
| Tickets.OpeningChatFrame | app/views.py:732-735 | in the corrected mark-seen only `seen` changes; the viewer's own messages and other conversations' messages are untouched |
| Tickets.MarkedSeenIdempotent | app/views.py:732-735 | opening the same chat twice leaves the messages as opening it once |
| Tickets.CountAfterOpening | app/views.py:732-735 | after opening c, the viewer's unseen counts are the old counts with c left out |
| Tickets.OpeningChatCounts | app/views.py:732-735 | opening c zeroes its count, keeps every other ticket's count, and lowers the badge by exactly c's count |
| Tickets.OpeningChatKeepsTimestamps | app/views.py:732-735 | the corrected mark-seen keeps every message's creation time |
| Tickets.MarkAsWritten | app/models.py:94 | as written, each message marked seen is also re-stamped with the time it was read |
| Tickets.MarkedSeenAsWrittenAt | app/views.py:732-735 | as written, the k-th save of the loop marks its message seen and stamps it with the k-th clock reading; a message the loop does not visit stays as it was |
| Tickets.OpenChatAsWritten | app/views.py:723-735 | as written: an unknown conversation is an error. Otherwise the loop visits the unread messages newest first and saves each one with its own clock reading; the store ends as those saves leave it |
| Tickets.AsWrittenDiffersOnlyInTimestamps | app/views.py:732-735 | the as-written and corrected mark-seen differ only in `created_at`, and only on the messages marked; each of those carries the reading of its own save |
| Tickets.AsWrittenReversesMarked | app/views.py:728-735 | with a clock that moves forward, of two marked messages the one written earlier is saved later, so after the loop it is dated later: the marked messages end up in reverse order |
| Tickets.OpeningChatRestampsAsWritten | app/models.py:94 | as written: A writes at 09:00, B replies at 10:00, and `add_chat` sends B back to the chat a second later; A's message is then dated after B's reply. The corrected mark-seen keeps 09:00 |
| ActivityViews.AppendActivities | app/views.py:243-244 | the loop appends, in order, one new activity per selected user and keeps every existing activity |
| ActivityViews.CreateBulk | app/views.py:225-248 | an invalid form changes nothing and returns its errors; a valid one appends exactly the new activities for the cleaned users |
| ActivityViews.BulkCreatesOnePerSelectedUser | app/views.py:232-244 | the new activities are exactly one per selected user; each has the requester as creater, the shared fields, the given visibility, is not completed, and is for a user the form offers |
| ActivityViews.NewActivitiesAreTheCreated | app/views.py:232-244 | after a valid bulk post, every selected user has a new activity, and each new activity carries the posted values, the requester and the form's visibility |
| ActivityViews.BulkCoversUsers | app/views.py:242-243 | every user of the cleaned list owns one of the activities the loop appends |
| ActivityViews.BulkCarriesFields | app/views.py:242-243 | the loop appends exactly one activity per cleaned user, in order, each built from the cleaned fields, the creator and the visibility |
| ActivityViews.SuperAdminCreateBulkActivity | app/views.py:225-248 | an invalid form creates nothing and returns its errors. A valid one appends one visible activity per selected user and keeps every existing activity. Each new activity has the requester as creater, the posted title, body, dates and sensitivity, and is not completed |
| ActivityViews.ManagerCreateBulkActivity | app/views.py:479-502 | as the super-admin view, but the activities are hidden, and each is for one of the manager's type-'3' employees with an approved profile |
| ActivityViews.CompletionForced | app/views.py:431-435 | completion sets `is_completed` to true whatever was posted, changes nothing else, and is idempotent |
| ActivityViews.CompletionRequest | app/views.py:644-655 | the guard chain decides first; if it fails, nothing changes; once it passes, the activity exists and belongs to the requester, and only its `is_completed` becomes true |
| Listings.ParseFlag | app/views.py:213 | a boolean GET filter reads 't'/'True'/'1' as true, 'f'/'False'/'0' as false, empty as absent, and anything else as an error |
| Listings.UserListScoped | app/views.py:80-98 | whatever is searched, a listed user is in the view's scope and is listed by the unsearched view; the type filter keeps only that type |
| Listings.TeamListIsBulkCandidates | app/views.py:367-377 | unsearched, the manager's employee list is exactly the manager bulk form's candidate set |
| Listings.ActivityListScoped | app/views.py:450-467 | whatever is searched, a listed activity is in scope (all, own visible, or the team's visible) and is listed by the unfiltered view; the completion filter keeps only matching activities |
| Listings.ActivityListErrors | app/views.py:202-217 | an activity list fails exactly when a boolean filter does not convert; with no filters it never fails |
| Listings.ProfileListFilters | app/views.py:166-173 | a status filter lists exactly the profiles with that status; a blank one lists every profile; with valid statuses, an unknown status lists none |
| Listings.TeamActivitiesBelongToCandidates | app/views.py:451-457 | every activity on a manager's team list belongs to a user the manager's bulk form offers |
| Listings.VisibilityPartition | app/views.py:66-68 | visible plus hidden activities make up all activities |
| Listings.HiddenBelowCount | app/views.py:68 | the dashboard's hidden list has exactly as many entries as there are hidden activities |
| Listings.TypePartition | app/views.py:62-64 | managers plus employees never exceed the users; with valid type codes, the three types make up all users |
| Listings.DashboardPartition | app/views.py:54-70 | the dashboard's counts partition the tables; its hidden list holds exactly the hidden activities, and its awaiting list exactly the pending profiles |
| Login.DashboardFor | app/views.py:41-46 | type '1' goes to the super-admin dashboard, '2' to the manager's, and every other value to the employee's |
| Login.LoginView | app/views.py:28-50 | a failed or missing login shows the form; an authenticated user is redirected by user type |
| Login.LoginLandsOnOwnDashboard | app/views.py:41-46 | the dashboard a user lands on admits that user iff the user type is one of the three codes; any other code lands on the employee dashboard, which refuses with "no access" |
| ProfileViews.CreatedProfileIsPending | app/views.py:584-595 | a profile is created iff the form is valid and the requester has none; it is appended, it is the requester's, it carries the posted phone number and national code, it is pending, keeps one profile per user, and passes neither profile-status guard |
| ProfileViews.AppendOwnProfile | app/models.py:49 | adding a profile for a user who has none keeps the one-to-one user column intact and makes that profile the user's |
| ProfileViews.UpdateKeepsOwnerAndRule | app/views.py:602-609 | an unknown pk is not found; an update of an existing profile rewrites only that profile and never its user; the employee's form keeps the status, the super-admin's sets a valid one |

## Left out

- Authentication, sessions, password checks and the user create/update forms: `authenticate()` is represented only by its result.
- Template rendering, redirects as HTTP responses, the messages framework, pagination (`paginate_by`), query ordering (`ordering = '-id'`, `order_by`) and the dashboard's `[:3]` slices.
- The guards `user_in_conversation_or_admin` and `user_is_message_owner_or_admin` are not part of this model, so the chat views have no guard chain here. `update_chat`, `load_older_messages`, `edit_chat` and `delete_chat` are left out.
- The Persian calendar converter `jalali` and `extras.PERSIAN_MONTHS` are not part of this model. The conversion is a parameter, and the day-grouping of chat messages is left out.
- Time zones (`make_aware`): instants are compared as naive date-times.
- `icontains`, with its Unicode case folding, is an abstract matcher.
- Form fields are modelled as cleaned values: whitespace stripping, and the parsing of times (a time that does not parse arrives as None), are not modelled.
- Image fields and the chat attachment.
- The ticket-create forms are not part of this model: the selected user is a parameter.
- `ChatCreateForm` is not part of this model: a valid post is represented by its body.
- `SuperAdminActivityUpdateView` and its `ActivityUpdateForm`, the delete views, the detail views' context lists, the manager and employee dashboards, and `SuperAdminUserCreateView`'s success URL.
- Concurrent requests and transactions.
- Tickets.OpenChatAsWritten: the database orders messages with equal `created_at` as it likes, so the loop's visiting order is a parameter, constrained by `Tickets.VisitOrder` to the marked messages, each once, newest first.
- Forms.CleanBulk, ActivityViews.AppendActivities: the cleaned users come in primary-key order, and the activities are created in that order. The source's `filter(pk__in=…)` on a model without `ordering` returns them in an unspecified order.
- `Models.PhoneValidIff`, `NationalCode.RejectsMalformed`: Python's `isdigit` and `\d` also accept non-ASCII digits (Persian digits, for instance). Only ASCII digits are modelled.
- Tickets.FindOrCreate: the walk follows primary-key order. The source iterates an unordered queryset, so when several conversations qualify, the one the source picks may differ.
- ProfileViews.CreatedProfileIsPending: a create for a user who already has a profile is modelled as an outcome of its own. In the source it is the database's integrity error.
- Models.ValidStore: the foreign-key and one-to-one constraints are stated as a predicate. Deletion and cascades are not modelled.

## Findings

| source | as written | input that shows it | evidently intended | confidence | as-written member | corrected member |
|---|---|---|---|---|---|---|
| app/views.py:148 | `SuperAdminUserDeleteView` declares no login or role mixin, unlike every sibling view | an anonymous POST to the user-delete URL deletes the user | guarded by login and the super-admin role like `SuperAdminActivityDeleteView` | high, not executed | Endpoints.UserDeleteOpenToEveryone | Endpoints.IntendedGuardsCloseEveryView |
| app/models.py:94 | `Message.created_at` uses `auto_now=True`, and `chat` saves every message it marks seen | A writes at 09:00 and B replies at 10:00; `add_chat` redirects B to `chat` (app/views.py:811), which marks A's message seen and dates it 10:00:01, after B's reply. With several unread messages, the newest is saved first, so the loop also reverses their order (`Tickets.AsWrittenReversesMarked`) | creation time set once (`auto_now_add`), so reading leaves it alone | medium, not executed | Tickets.OpeningChatRestampsAsWritten | Tickets.OpeningChatKeepsTimestamps |
