# Wellbeing check-in dashboard: a Dafny model

The application is a team-wellbeing web app. Its Go backend (Fiber, MongoDB) serves:

- a check-in route set;
- project and team CRUD routes;
- registration and login with bcrypt and JWT.

Its Next.js dashboard has these pages:

- a daily check-in/check-out page, gated by an eight-hour lock and using a selfie with face-expression detection;
- an overview page with a role label, attendance warnings, a 14-day mood chart and "my projects";
- a reports page with per-user summaries and a month/year filter;
- projects and teams pages, each with search, create, edit and delete;
- a comfort-tips page with favourites;
- the dashboard shell, with a role-based menu, a login redirect and a responsive sidebar.

The model has one Dafny module per source file, plus helper modules:

- `Wrappers`: Option and Result.
- `Text`: ASCII lower-casing, `includes`, `trim` emptiness and `padStart`.
- `Sequences`: `filter`, subsequences, occurrence counts and checkbox toggling.
- `ObjectIds`: `ObjectIDFromHex` and the id-list conversion loop.
- `PageLists`: the `x.id || x._id` key and the delete-by-key filter.

Conventions:

- **Backend collections** are classes holding a `seq` of documents. Each route handler that writes is a method, and its `ensures` gives the new collection and the reply.
- **React pages** are classes. Their fields are the page's `useState` hooks, and each handler is a method.
- **Pure derivations** are functions with contracts, with lemmas about them. These include filters, the attendance gate and the summaries.
- **Environment values** are parameters: the clock, fresh object ids, database failures, token verification, face detection and the browser's local calendar.
- **Times** are integers in milliseconds since the Unix epoch. Token expiry is in seconds.

Where the code and the design description disagree, the model follows the code:

- **The unlock time.**
  - Design: check-out unlocks eight hours after the *earliest* check-in.
  - Code: it uses the first check-in *in list order* (`UnlockUsesFirstListedNotEarliest`).
- **When the lock is re-evaluated.**
  - Design: every minute.
  - Code: `checkoutEnabled` is computed once per fetch (`StaleCheckoutLock`).
- **Check-out.**
  - Design: check-out needs a mood the user selects.
  - Code: no control ever sets `selectedMood`, so every check-out is refused (`CheckoutNeverSubmits`).
- **One record per kind per day.**
  - Design: the backend enforces this and check-in-before-check-out.
  - Code: `POST /api/checkins` checks neither (`TwoCheckinsSameDay`, `CheckoutWithoutCheckin`).
- **Overdue warning.** After a check-out the dashboard still warns of an overdue check-out, because backend records have no `checkoutAt` (`OverdueEvenAfterCheckout`).
- **Role names.**
  - Client privileged roles: "admin" and "project_manager".
  - Listing route privileged roles: "manager" and "project_manager".
  - Registration assigns "member".
  - Results: `RoleVocabulariesDisagree`, `AdminListsOnlyOwn` and `BackendManagerRoleHasNoMenu`.
- **Project status tabs.** A created project has no `status`, so the "active" and "completed" tabs never show it (`StatusTabsEmptyForCreatedProjects`).
- **Team search.** A team saved with an empty description comes back without one. A search that misses its name then throws and the page fails to render (`OmittedDescriptionBreaksSearch`).
- **Edit and delete keys.** They compare records differently (`EditAndDeleteDisagree`, `UndefinedEditIdMatchesIdless`).
- **Duplicate emails.** A failed count query at registration admits a duplicate email. Login then always finds the first account (`LaterDuplicateShadowed`).
- **Dates in a project update.** A blank date in `PUT /api/projects/:id` never clears the stored date (`PutNeverClearsDates`).
- **Team lead.** A malformed lead id is stored as the zero id (`TeamRoutes.NewTeam`).

## Model

| member | source | states |
|---|---|---|
| Auth.Ascii | backend/routes/checkin.go:21-26 | the header bytes of an ASCII string: one byte per character, holding that character's code |
| Auth.ExtractToken | backend/routes/checkin.go:21-26 | a header shorter than 8 bytes (or empty) is refused with "Missing or invalid token"; otherwise the token is the header minus its first 7 bytes, and is never empty |
| Auth.ExtractIgnoresScheme | backend/routes/checkin.go:21-26 | any 7 bytes followed by a non-empty token yield that token, so the `Bearer ` scheme is never checked |
| Auth.BearerHeaderYieldsToken | backend/routes/checkin.go:21-26 | a `Bearer <token>` header yields exactly its token |
| Auth.Authenticate | backend/routes/checkin.go:21-42 | a short header gives 401 "Missing or invalid token"; a token that fails verification gives 401 "Invalid token"; success copies the verified `id` and `role` claims into the locals |
| CheckinRoutes.ListCheckins | backend/routes/checkin.go:45-67 | no string user id gives 401; a query failure gives 500; "manager" and "project_manager" get every record, anyone else exactly the records filed under their own id, in stored order |
| CheckinRoutes.SubsequenceReflexive | backend/routes/checkin.go:52-53 | the unfiltered listing, every record in stored order, is a subsequence of the stored records |
| CheckinRoutes.AdminListsOnlyOwn | backend/routes/checkin.go:52-56 | a caller whose role is "admin" is not privileged here and lists only its own records |
| CheckinRoutes.DayStart | backend/routes/checkin.go:110 | `Truncate(24h)` gives the UTC midnight at or before `now`, a multiple of a day |
| CheckinRoutes.TodayWindowIsSameUtcDay | backend/routes/checkin.go:110-112 | `[start, start+24h)` holds exactly the instants on the same UTC day number as `now` |
| CheckinRoutes.DivBetween | backend/routes/checkin.go:110-112 | an instant within day `k`'s window has day number `k` |
| CheckinRoutes.TodayCheckins | backend/routes/checkin.go:104-121 | 401 without a user id, 500 on a query failure; otherwise exactly the caller's records whose time lies in today's UTC window, in stored order |
| CheckinRoutes.CheckinStore.Create | backend/routes/checkin.go:69-102 | a bad body gives 400; no user id gives 401; an insert failure gives 500 and no change; otherwise 201 with a "present" record stamped `now` is appended |
| CheckinRoutes.TwoCheckinsSameDay | backend/routes/checkin.go:69-102 | two check-ins by one user on the same day are both accepted and both fall in today's window |
| CheckinRoutes.CheckoutWithoutCheckin | backend/routes/checkin.go:69-121 | a check-out is accepted on a day with no check-in, and today's list then holds only that check-out |
| ObjectIds.FromHex | backend/routes/project.go:113 | parsing succeeds exactly on 24 hexadecimal digits, and the id is then in canonical lower-case form |
| ObjectIds.FromHexOrZero | backend/routes/team.go:86 | with the error dropped, a valid string gives its id and an invalid one the zero id |
| ObjectIds.HexRoundTrip | backend/routes/project.go:113 | parsing the printed form of an id gives the id back |
| ObjectIds.LowerFixesLowerCase | backend/routes/project.go:113 | lower-casing a string without upper-case letters leaves it unchanged |
| ObjectIds.ValidIds | backend/routes/project.go:150-156 | the converted list is no longer than the request's and holds only canonical ids |
| ObjectIds.ValidIdsAppend | backend/routes/project.go:150-156 | one more request entry adds its id exactly when it parses |
| ObjectIds.ValidIdsIsParsedFilter | backend/routes/project.go:150-156 | the result is the parsed form of exactly the valid strings, in request order |
| ObjectIds.FindById | backend/routes/project.go:118 | `FindOne` on `_id`: a document is found exactly when one carries the id, and it carries that id |
| ObjectIds.FindByIdFirst | backend/routes/project.go:118 | the lookup returns the earliest document with the id |
| ObjectIds.FindByIdUnique | backend/routes/project.go:118 | under the unique `_id` index, looking up a stored document's id gives that document |
| ObjectIds.FindByIdAppendFresh | backend/routes/project.go:118 | a document inserted under a fresh id is what a lookup of that id finds |
| ObjectIds.ValidIdsAllInvalid | backend/routes/team.go:79-85 | a request listing only malformed ids stores an empty list |
| ObjectIds.ParseIds | backend/routes/team.go:79-85 | the conversion loop computes `ValidIds` of the request |
| ObjectIds.FilterKeepsDistinctIds | backend/routes/project.go:222-232 | deleting documents keeps the remaining `_id`s distinct |
| ProjectRoutes.ParseDate | backend/routes/project.go:137-149 | an accepted string has the `2006-01-02` shape and names a real calendar date with a four-digit year, and writing that date back gives the same string |
| ProjectRoutes.FormatDate | backend/routes/project.go:137-149 | the written form of a date is ten characters long |
| ProjectRoutes.DigitCharValue | backend/routes/project.go:137-149 | the digit written for `n` reads back as `n` |
| ProjectRoutes.TwoDigits | backend/routes/project.go:137-149 | a two-digit number splits into tens and units |
| ProjectRoutes.FourDigits | backend/routes/project.go:137-149 | a four-digit year splits into its digits |
| ProjectRoutes.DigitsReadBack | backend/routes/project.go:137-149 | the digits of a well-shaped date string are written back as the same characters |
| ProjectRoutes.FormattedDigits | backend/routes/project.go:137-149 | a written date has the layout's shape and its digits spell its year, month and day |
| ProjectRoutes.ParseFormatRoundTrip | backend/routes/project.go:137-149 | every valid date with a four-digit year is accepted back from its written form |
| ProjectRoutes.NonLeapFebruary29Refused | backend/routes/project.go:139 | "2023-02-29" is refused |
| ProjectRoutes.OptionalDateIsParse | backend/routes/project.go:138-149 | the non-empty guard never changes the outcome, because "" does not parse |
| ProjectRoutes.BuildUpdate | backend/routes/project.go:189-214 | the `$set` document always holds name and description; it holds a date exactly when it is non-empty and parses, and a team list exactly when the request has one |
| ProjectRoutes.ApplyUpdate | backend/routes/project.go:215 | `$set` overwrites the keys present and keeps the id, the creation time and every absent key |
| ProjectRoutes.PutNeverClearsDates | backend/routes/project.go:193-204 | a blank or unparseable date in a `PUT` leaves the stored date as it was |
| ProjectRoutes.PutOverwritesNameAndDescription | backend/routes/project.go:189-191 | a `PUT` always overwrites name and description, with empty strings too |
| ProjectRoutes.PutTeamsOnlyWhenPresent | backend/routes/project.go:205-213 | the teams change only when the request carries a list; an empty list clears them; otherwise they become the valid ids |
| ProjectRoutes.CreatedProjectIsFound | backend/routes/project.go:112-171 | the project `POST` inserts under a fresh id is what `GET /api/projects/:id` then returns |
| ProjectRoutes.ProjectStore.GetById | backend/routes/project.go:112-123 | a malformed id gives 400; an unknown id gives 404; a stored id gives 200 with the first project carrying it (`FindById`) |
| ProjectRoutes.ProjectStore.Create | backend/routes/project.go:126-171 | a bad body gives 400; an insert failure gives 500 and no change; otherwise 200, and the project with parsed dates and converted team ids is appended |
| ProjectRoutes.ProjectStore.Update | backend/routes/project.go:174-220 | the path id is checked before the body; success applies the `$set` to the matching document (if any), and every other document is unchanged |
| ProjectRoutes.ProjectStore.Delete | backend/routes/project.go:222-232 | a malformed id gives 400; success removes exactly the document with that id and keeps `_id`s distinct |
| TeamRoutes.NewTeam | backend/routes/team.go:69-100 | the inserted team keeps name and description, holds `ValidIds` of the member list (the valid ids, parsed, in request order), and gets the lead's id or the zero id when the lead does not parse |
| TeamRoutes.Overwrite | backend/routes/team.go:116-130 | `PUT` rewrites name, description, members and lead exactly as a fresh team would, keeping id and creation time |
| TeamRoutes.OverwriteForgetsOldFields | backend/routes/team.go:116-130 | the outcome of a `PUT` does not depend on the team's previous fields |
| TeamRoutes.CreatedTeamIsFound | backend/routes/team.go:56-100 | the team `POST` inserts under a fresh id is what `GET /api/teams/:id` then returns |
| TeamRoutes.OverwrittenTeamIsFound | backend/routes/team.go:56-134 | a `PUT` keeps ids distinct, and a lookup of the team's id then returns the overwritten team |
| TeamRoutes.TeamStore.GetById | backend/routes/team.go:56-67 | a malformed id gives 400; an unknown id gives 404; a stored id gives 200 with the first team carrying it (`FindById`) |
| TeamRoutes.TeamStore.Create | backend/routes/team.go:69-100 | a bad body gives 400; an insert failure gives 500 and no change; otherwise 200 and `NewTeam` is appended |
| TeamRoutes.TeamStore.Update | backend/routes/team.go:102-135 | the path id is checked before the body; success overwrites the matching team, and every other team is unchanged |
| TeamRoutes.TeamStore.Delete | backend/routes/team.go:137-147 | a malformed id gives 400; success removes exactly the team with that id |
| UserRoutes.EmailCount | backend/routes/user.go:36-39 | the count is positive exactly when some stored user has the email |
| UserRoutes.FirstWithEmail | backend/routes/user.go:70 | `FindOne` finds nothing exactly when no user has the email; otherwise it finds the first such user |
| UserRoutes.ClaimsFor | backend/routes/user.go:78-84 | the token carries the user's hex id, name, email and role and expires 24 hours after `now` |
| UserRoutes.LoginTokenAuthenticates | backend/routes/user.go:78-84 | a login token, read back by the middleware, authenticates as that user with that role |
| UserRoutes.NewUser | backend/routes/user.go:41-52 | a registered user has role "member" and the bcrypt hash of the password |
| UserRoutes.FirstWithEmailAppend | backend/routes/user.go:36-53 | after registering a fresh email, `FindOne` on that email finds the new user |
| UserRoutes.RegisterThenLogin | backend/routes/user.go:21-90 | after registering a fresh email, login accepts that password and, with the hash taken as collision-free, no other |
| UserRoutes.LoginFindsNewUser | backend/routes/user.go:21-90 | right after registering a fresh email, login accepts that password and finds the new user, so `Login` answers with that user's session |
| UserRoutes.LaterDuplicateShadowed | backend/routes/user.go:70-74 | a later account with an already-used email can never log in with a password the first account rejects |
| UserRoutes.UserStore.Register | backend/routes/user.go:21-59 | a bad body gives 400; a missing field gives 400; a taken email gives 400 unless the count query failed; hash and insert failures give 500; otherwise 201, the user is appended, and the reply omits the hash |
| UserRoutes.UserStore.Login | backend/routes/user.go:61-90 | a bad body gives 400; credentials `LoginAccepts` refuses give 401; a signing failure gives 500; accepted credentials give 200 with a token for the first user with that email and that user's public fields |
| Text.Lower | well/app/dashboard/projects/page.tsx:75-77 | lower-casing keeps the length and leaves no upper-case letter, mapping each character |
| Text.LowerIdempotent | well/app/dashboard/projects/page.tsx:75-77 | lower-casing twice is lower-casing once |
| Text.ContainsIffOccurs | well/app/dashboard/projects/page.tsx:75-77 | `includes` holds exactly when the needle occurs at some index |
| Text.ContainsEmpty | well/app/dashboard/tips/page.tsx:108-111 | every string includes the empty string |
| Text.PadStart2 | well/app/dashboard/reports/page.tsx:178-180 | `padStart(2, "0")` leaves long strings alone and left-pads shorter ones with zeros to length 2 |
| Text.NatToString | well/app/dashboard/reports/page.tsx:178 | the decimal form is non-empty digits without a leading zero, and reads back as the number |
| Text.MonthLabelReadBack | well/app/dashboard/reports/page.tsx:178-180 | a month's two-digit label reads back as that month |
| Text.MonthLabelInjective | well/app/dashboard/reports/page.tsx:178-180 | two months have the same label exactly when they are the same month |
| Sequences.Filter | well/app/dashboard/tips/page.tsx:108-120 | `filter` keeps exactly the elements that pass, and is no longer than its input |
| Sequences.EmptyIsSubsequence | well/app/dashboard/tips/page.tsx:108-120 | the empty list is a subsequence of every list |
| Sequences.FilterIsSubsequence | well/app/dashboard/tips/page.tsx:108-120 | `filter` keeps the survivors in their original order |
| Sequences.SkipHeadIsSubsequence | well/app/dashboard/tips/page.tsx:108-120 | a subsequence of the tail is a subsequence of the whole |
| Sequences.SubsequenceTail | well/app/dashboard/tips/page.tsx:108-120 | dropping the head of a subsequence keeps it a subsequence |
| Sequences.FilterKeepsAll | well/app/dashboard/tips/page.tsx:108-120 | a filter every element passes returns its input |
| Sequences.FilterAppend | well/app/dashboard/tips/page.tsx:108-120 | filtering one more element extends the result by it exactly when it passes |
| Sequences.CountAppend | well/app/dashboard/tips/page.tsx:122-136 | occurrence counts add over concatenation |
| Sequences.CountPositiveIffIn | well/app/dashboard/tips/page.tsx:122-136 | a value occurs a positive number of times exactly when it is in the list |
| Sequences.CountFilter | well/app/dashboard/tips/page.tsx:122-136 | filtering keeps every occurrence of a passing value and none of a failing one |
| Sequences.RemoveAll | well/app/dashboard/tips/page.tsx:124 | `filter(id => id !== v)` drops `v` and keeps every other element |
| Sequences.RemoveAllCounts | well/app/dashboard/tips/page.tsx:124 | removal leaves no occurrence of `v`, keeps every other count, and keeps the order |
| Sequences.FilterIdempotent | well/app/dashboard/projects/page.tsx:176 | filtering twice with one predicate is filtering once |
| Sequences.Toggle | well/app/dashboard/projects/page.tsx:241-247 | checking appends the value, leaving the old list as a prefix; unchecking removes every copy; other values' counts are kept |
| Sequences.CountAppendAll | well/app/dashboard/projects/page.tsx:241-247 | occurrence counts add over concatenation, for every value at once |
| Sequences.CheckThenUncheck | well/app/dashboard/projects/page.tsx:241-247 | checking then unchecking a value removes every copy of it and changes nothing else |
| PageLists.Without | well/app/dashboard/projects/page.tsx:176 | the delete keeps exactly the records whose key differs from the id, in order |
| PageLists.DeleteTwiceIsDeleteOnce | well/app/dashboard/teams/page.tsx:101 | deleting the same id twice is deleting it once |
| CheckinPage.FindKind | well/app/dashboard/checkin/page.tsx:70 | `find` returns the position of the first record of the kind, and nothing exactly when there is none |
| CheckinPage.UnlockTime | well/app/dashboard/checkin/page.tsx:70-74 | an unlock time exists exactly when a check-in exists |
| CheckinPage.UnlockUsesFirstListedNotEarliest | well/app/dashboard/checkin/page.tsx:70-74 | with a later check-in listed first, the unlock is eight hours after the later one |
| CheckinPage.UnlockIsFirstCheckin | well/app/dashboard/checkin/page.tsx:70-74 | the unlock is eight hours after a check-in with no check-in listed before it |
| CheckinPage.UnlockBoundaryInclusive | well/app/dashboard/checkin/page.tsx:74-77 | check-out is locked one millisecond before the eight hours are up and enabled exactly at them |
| CheckinPage.EightHourRuleOnlyThroughTab | well/app/dashboard/checkin/page.tsx:77-79 | before the unlock the fetch selects the check-out tab, which is disabled, yet the check-out button is enabled |
| CheckinPage.CheckinTabDisabledIffCheckedIn | well/app/dashboard/checkin/page.tsx:210-215 | the check-in tab is disabled exactly when the user has checked in, whatever the clock says |
| CheckinPage.Validate | well/app/dashboard/checkin/page.tsx:152-170 | a check-out without a mood is refused for the mood first; otherwise a submission without a selfie is refused for the selfie; everything else passes |
| CheckinPage.OrUnknown | well/app/dashboard/checkin/page.tsx:177 | `x \|\| "unknown"` is never empty and keeps a non-empty `x` |
| CheckinPage.Payload | well/app/dashboard/checkin/page.tsx:175-181 | the body carries kind, description, selfie and face data; a check-in's mood is the face expression, a check-out's the selected mood, each defaulting to "unknown" |
| CheckinPage.CheckinRecordCarriesExpression | well/app/dashboard/checkin/page.tsx:175-181 | a check-in stored by the backend has the detected expression as its mood and status "present" |
| CheckinPage.ArgMaxLast | well/app/dashboard/checkin/page.tsx:126-130 | the chosen expression has a maximal score and every later one scores strictly less, so ties go to the later key |
| CheckinPage.TieGoesToLaterKey | well/app/dashboard/checkin/page.tsx:126-130 | with equal top scores the later expression is chosen |
| CheckinPage.MainExpression | well/app/dashboard/checkin/page.tsx:124-130 | "-" without an expression map; otherwise the name of a top-scoring expression with no later equal score |
| CheckinPage.CheckinPageState.constructor | well/app/dashboard/checkin/page.tsx:18-38 | initially there are no records, the check-in tab is active, check-out is disabled and the form is empty |
| CheckinPage.CheckinPageState.FetchToday | well/app/dashboard/checkin/page.tsx:62-91 | a response sets the records, the lock end, `checkoutEnabled` at fetch time and the tab; a failure clears records and lock and keeps the tab; the form is untouched |
| CheckinPage.CheckinPageState.OpenCamera | well/app/dashboard/checkin/page.tsx:97-104 | the camera view opens and nothing else changes |
| CheckinPage.CheckinPageState.CaptureSelfie | well/app/dashboard/checkin/page.tsx:106-150 | without a video element or drawing context nothing changes; no face clears the face result and keeps the preview; otherwise the frame becomes the preview and the camera closes; the face result is updated unless the expression map is empty |
| CheckinPage.CheckinPageState.RetakeCheckin | well/app/dashboard/checkin/page.tsx:270 | the check-in retake clears preview and face result |
| CheckinPage.CheckinPageState.RetakeCheckout | well/app/dashboard/checkin/page.tsx:362 | the check-out retake clears only the preview |
| CheckinPage.CheckinPageState.SetDescription | well/app/dashboard/checkin/page.tsx:310 | typing sets the description and nothing else |
| CheckinPage.CheckinPageState.SelectTab | well/app/dashboard/checkin/page.tsx:233-236 | a click on a disabled tab changes nothing; on an enabled tab it selects that tab |
| CheckinPage.CheckinPageState.StartSubmit | well/app/dashboard/checkin/page.tsx:152-181 | a rejected submission changes nothing; an accepted one starts submitting with `Payload`; a check-out is always rejected for its mood |
| CheckinPage.CheckinPageState.FinishSubmit | well/app/dashboard/checkin/page.tsx:182-203 | submitting ends; on success mood, description, preview and face result are reset; on failure they are kept |
| CheckinPage.StaleCheckoutLock | well/app/dashboard/checkin/page.tsx:74-79 | fetched one minute before the unlock, the check-out tab stays locked although the unlock time has come |
| CheckinPage.CheckoutNeverSubmits | well/app/dashboard/checkin/page.tsx:152-160 | in any reachable state a check-out submission is refused for a missing mood |
| DashboardPage.RoleLabel | well/app/dashboard/page.tsx:53-54 | "Admin" exactly for admins, "Project Manager" exactly for project managers, "Team Member" for everyone else |
| DashboardPage.RoleVocabulariesDisagree | well/app/dashboard/page.tsx:53 | "admin" is privileged on the page but not for the listing route; "manager" is the reverse |
| DashboardPage.FindToday | well/app/dashboard/page.tsx:59-72 | today's check-in is the first of the user's dated records on today's local day, and none exactly when there is no such record |
| DashboardPage.WarningFor | well/app/dashboard/page.tsx:74-91 | without a check-in: the late warning from 09:00, the reminder before; with one: an overdue warning exactly when there is no check-out time and more than nine hours have passed |
| DashboardPage.ComputeWarning | well/app/dashboard/page.tsx:56-92 | no warning for a signed-out user or an admin; for a member, `WarningFor` of the first today's record |
| DashboardPage.FromBackend | backend/routes/checkin.go:62-66 | a record from the backend has a creation time and never a `checkoutAt` |
| DashboardPage.OverdueEvenAfterCheckout | well/app/dashboard/page.tsx:80-90 | a member who checked in over nine hours ago and has checked out is still warned of an overdue check-out |
| DashboardPage.MoodToValue | well/app/dashboard/page.tsx:257-262 | happy maps to 2, neutral to 1, stressed to 0, ignoring case, and anything else to nothing |
| DashboardPage.MoodToValueIgnoresCase | well/app/dashboard/page.tsx:257-262 | a mood and its lower-cased form map to the same value |
| DashboardPage.Insert | well/app/dashboard/page.tsx:276 | inserting into a list sorted by time keeps it sorted and adds exactly one element |
| DashboardPage.SortByStamp | well/app/dashboard/page.tsx:276 | the sort by creation time yields a strictly increasing permutation of its input |
| DashboardPage.LastFourteen | well/app/dashboard/page.tsx:277 | `slice(-14)` is the last 14 elements, or all of them when there are fewer |
| DashboardPage.BuildMoodHistory | well/app/dashboard/page.tsx:264-282 | at most 14 points in time order; each is the latest eligible record of its day; every eligible record's day is covered unless older than the 14 shown |
| DashboardPage.HistoryFacts | well/app/dashboard/page.tsx:264-282 | the latest-per-day map, sorted and cut to 14, has those properties |
| DashboardPage.HistoryDaysDistinct | well/app/dashboard/page.tsx:264-282 | no two chart points fall on the same local day |
| DashboardPage.ChartPoints | well/app/dashboard/page.tsx:278-282 | one point per history record, in order; a point has a value, 0 to 2, exactly for the three known moods; a time-ordered history gives time-ordered points |
| DashboardPage.ScanTeams | well/app/dashboard/page.tsx:339-351 | the team loop finds the user exactly when some team of the project lists the user among its members |
| DashboardPage.ScanMembers | well/app/dashboard/page.tsx:340-362 | the member loop sets `found` exactly when some member matches the user |
| DashboardPage.InvolvedProjects | well/app/dashboard/page.tsx:332-365 | the projects listing the user in a team's members or in their own members, in order |
| DashboardPage.ObjectWithoutIdMatchesLiteral | well/app/dashboard/page.tsx:343-346 | a member object without `id` compares as "[object Object]" |
| ReportsPage.FindUser | well/app/dashboard/reports/page.tsx:36 | `users.find` by id finds a user with that id, and nothing exactly when there is none |
| ReportsPage.TallyAppend | well/app/dashboard/reports/page.tsx:35-53 | a tally grows by one exactly when the added row counts |
| ReportsPage.TallyNoRows | well/app/dashboard/reports/page.tsx:35-53 | a user without rows has zero tallies |
| ReportsPage.KnownIdsFacts | well/app/dashboard/reports/page.tsx:32-55 | the summary keys are distinct, known, and include every known row author |
| ReportsPage.Bump | well/app/dashboard/reports/page.tsx:49 | the mood map is never empty after a bump |
| ReportsPage.MoodKeysCons | well/app/dashboard/reports/page.tsx:49 | the keys of a mood map are its first key and the keys of the rest |
| ReportsPage.DistinctKeysTail | well/app/dashboard/reports/page.tsx:49 | the tail of a mood map with distinct keys has distinct keys and lacks the head's key |
| ReportsPage.BumpFacts | well/app/dashboard/reports/page.tsx:49 | `moodCount[m] = (moodCount[m] \|\| 0) + 1` raises exactly `m`'s count by one, adds `m` as a key and raises the total by one |
| ReportsPage.IndexOf | well/app/dashboard/reports/page.tsx:38 | the position of a user's summary, and nothing exactly when there is none |
| ReportsPage.UnknownRowIgnored | well/app/dashboard/reports/page.tsx:36-37 | a row by an unknown user changes nothing |
| ReportsPage.OtherStatusCountsNothing | well/app/dashboard/reports/page.tsx:38-53 | a row neither present nor absent only creates the user's empty summary, if it is missing |
| ReportsPage.OtherUserRow | well/app/dashboard/reports/page.tsx:35-53 | another user's row leaves a summary's counts correct |
| ReportsPage.OwnUserRow | well/app/dashboard/reports/page.tsx:46-53 | counting a user's own row keeps that summary's counts correct |
| ReportsPage.AddUnknownRow | well/app/dashboard/reports/page.tsx:36-37 | a row by an unknown user keeps all summaries correct |
| ReportsPage.AddFirstRowOfUser | well/app/dashboard/reports/page.tsx:38-53 | a user's first row creates a correct summary at the end |
| ReportsPage.AddLaterRowOfUser | well/app/dashboard/reports/page.tsx:46-53 | a later row of a user keeps all summaries correct |
| ReportsPage.AddRowPreserves | well/app/dashboard/reports/page.tsx:35-53 | every row keeps all summaries correct |
| ReportsPage.GetUserSummaries | well/app/dashboard/reports/page.tsx:31-56 | one summary per known user with rows, in first-row order, with name, role, present and absent counts and per-mood counts of present rows equal to the tallies of the data |
| ReportsPage.MoodCountSum | well/app/dashboard/reports/page.tsx:46-53 | a summary's mood counts add up to its present rows with a mood, and never exceed `hadir` |
| ReportsPage.TallyMoodBound | well/app/dashboard/reports/page.tsx:46-53 | present rows with a mood are never more than present rows |
| ReportsPage.FilterRows | well/app/dashboard/reports/page.tsx:172-189 | the filter keeps, in order, exactly the rows the period test accepts |
| ReportsPage.AllKeepsEverything | well/app/dashboard/reports/page.tsx:172-189 | the "all" period keeps every row |
| ReportsPage.MonthlyMeansSameMonthAndYear | well/app/dashboard/reports/page.tsx:177-181 | "monthly" keeps a dated row exactly when its month and year are the chosen ones |
| ReportsPage.UndatedRowsKept | well/app/dashboard/reports/page.tsx:176-187 | a row without `createdAt` passes every period |
| ReportsPage.ReportsPageState.constructor | well/app/dashboard/reports/page.tsx:151-170 | the page starts with no data and the "all" period |
| ReportsPage.ReportsPageState.Loaded | well/app/dashboard/reports/page.tsx:151-166 | loading sets data and users, and the initialising effect shows all rows |
| ReportsPage.ReportsPageState.HandleFilter | well/app/dashboard/reports/page.tsx:172-189 | the filter button shows `FilterRows` of the data and changes nothing else |
| ReportsPage.ReportsPageState.UserSummaries | well/app/dashboard/reports/page.tsx:196 | the table's summaries are those of the filtered rows |
| ProjectsPage.FilteredProjects | well/app/dashboard/projects/page.tsx:73-84 | the listed projects are, in order, exactly those matching the search in name, description or team name, and the tab's status |
| ProjectsPage.EmptySearchShowsAll | well/app/dashboard/projects/page.tsx:73-84 | an empty search on the "all" tab lists every project in order |
| ProjectsPage.SearchIgnoresQueryCase | well/app/dashboard/projects/page.tsx:75-77 | the query's letter case does not matter |
| ProjectsPage.StatusTabsEmptyForCreatedProjects | well/app/dashboard/projects/page.tsx:80-81 | the "active" and "completed" tabs show none of the projects the create route returns, because they carry no status |
| ProjectsPage.EditAndDeleteDisagree | well/app/dashboard/projects/page.tsx:154-176 | a record with an `id` and a different `_id` is edited through its `_id` but not deleted through it |
| ProjectsPage.UndefinedEditIdMatchesIdless | well/app/dashboard/projects/page.tsx:131-154 | a project without any id opens the editor with an undefined id, which matches every project without `id` |
| ProjectsPage.ProjectsPageState.constructor | well/app/dashboard/projects/page.tsx:42-128 | the page starts empty, on the "all" tab, with closed dialogs and empty forms |
| ProjectsPage.ProjectsPageState.Loaded | well/app/dashboard/projects/page.tsx:55-71 | the projects become the array received, or empty on failure |
| ProjectsPage.ProjectsPageState.ToggleNewTeam | well/app/dashboard/projects/page.tsx:241-247 | a create-dialog checkbox toggles its team in `newProjectTeams` and changes nothing else |
| ProjectsPage.ProjectsPageState.ToggleEditTeam | well/app/dashboard/projects/page.tsx:497-503 | an edit-dialog checkbox toggles its team in `editProjectTeams` and changes nothing else |
| ProjectsPage.ProjectsPageState.CreateProject | well/app/dashboard/projects/page.tsx:86-120 | a blank name sends nothing; otherwise the form is sent; on success the returned project is appended, the form reset and the dialog closed |
| ProjectsPage.ProjectsPageState.OpenEditDialog | well/app/dashboard/projects/page.tsx:130-138 | the editor gets the key, name, description, ISO dates and teams of the project, and opens |
| ProjectsPage.ProjectsPageState.EditProject | well/app/dashboard/projects/page.tsx:140-169 | a blank name sends nothing; on success every project the edit id matches takes the form's fields and the dialog closes; the list length never changes |
| ProjectsPage.ProjectsPageState.DeleteProject | well/app/dashboard/projects/page.tsx:171-183 | nothing without confirmation; after a successful request, exactly the projects keyed by the id are dropped |
| TeamsPage.TeamSearch | well/app/dashboard/teams/page.tsx:60-64 | a team matches on its name or, when the name misses, on its description; it throws exactly when the name misses and there is no description |
| TeamsPage.FilteredTeams | well/app/dashboard/teams/page.tsx:60-64 | rendering fails exactly when some team's search throws; otherwise the listed teams are, in order, exactly the matching ones |
| TeamsPage.EmptySearchShowsAll | well/app/dashboard/teams/page.tsx:60-64 | an empty search lists every team |
| TeamsPage.OmittedDescriptionBreaksSearch | well/app/dashboard/teams/page.tsx:60-64 | a team saved with an empty description makes a search that misses its name fail to render |
| TeamsPage.MemberOptions | well/app/dashboard/teams/page.tsx:201 | the pickers offer, in order, exactly the users with role "member" |
| TeamsPage.ShownAvatars | well/app/dashboard/teams/page.tsx:316 | at most the first four members are drawn |
| TeamsPage.OverflowBadge | well/app/dashboard/teams/page.tsx:331-333 | the badge appears exactly when there are more than four members |
| TeamsPage.AvatarsAccountForEveryMember | well/app/dashboard/teams/page.tsx:316-333 | the avatars plus the badge's number are the member count, and the badge appears only beside four avatars |
| TeamsPage.Validate | well/app/dashboard/teams/page.tsx:66-78 | a blank name is refused first, then an empty lead; otherwise the form becomes the request |
| TeamsPage.TeamsPageState.constructor | well/app/dashboard/teams/page.tsx:34-115 | the page starts empty with closed dialogs and empty forms |
| TeamsPage.TeamsPageState.Loaded | well/app/dashboard/teams/page.tsx:46-58 | the lists become the arrays received (empty for a non-array); a failure leaves both as they were |
| TeamsPage.TeamsPageState.ToggleNewMember | well/app/dashboard/teams/page.tsx:207-213 | a create-dialog checkbox toggles its user in `newTeamMembers` and changes nothing else |
| TeamsPage.TeamsPageState.ToggleEditMember | well/app/dashboard/teams/page.tsx:402-408 | an edit-dialog checkbox toggles its user in `editTeamMembers` and changes nothing else |
| TeamsPage.TeamsPageState.CreateTeam | well/app/dashboard/teams/page.tsx:66-94 | the outcome is `Validate` of the form; on success the returned team is appended and the form reset, but the dialog stays open |
| TeamsPage.TeamsPageState.OpenEditDialog | well/app/dashboard/teams/page.tsx:117-124 | the editor gets the key, name, description, members and lead of the team, and opens |
| TeamsPage.TeamsPageState.EditTeam | well/app/dashboard/teams/page.tsx:126-157 | the outcome is `Validate` of the form; on success every matching team takes the form's fields and the dialog closes |
| TeamsPage.TeamsPageState.DeleteTeam | well/app/dashboard/teams/page.tsx:96-108 | nothing without confirmation; after a successful request, exactly the teams keyed by the id are dropped |
| TipsPage.LikedIds | well/app/dashboard/tips/page.tsx:105 | the initial favourites are exactly the ids of the tips marked liked |
| TipsPage.InitialLikedAreTwoAndSix | well/app/dashboard/tips/page.tsx:25-105 | the page starts with tips 2 and 6 liked |
| TipsPage.LikedIdsOfLayout | well/app/dashboard/tips/page.tsx:25-105 | a nine-tip list where tip `k+1` sits at index `k` and only tips 2 and 6 are liked has favourites 2 and 6 |
| TipsPage.LikedIdsStep | well/app/dashboard/tips/page.tsx:105 | the favourites of a suffix are its head's id, if liked, followed by those of the rest |
| TipsPage.FilteredTips | well/app/dashboard/tips/page.tsx:108-120 | the listed tips are, in order, exactly those matching the search and the tab (category, favourites or all) |
| TipsPage.EmptySearchShowsAll | well/app/dashboard/tips/page.tsx:108-120 | an empty search on the "all" tab lists every tip, in order |
| TipsPage.Like | well/app/dashboard/tips/page.tsx:122-136 | a liked tip is unliked and an unliked one appended; every other id's membership is kept |
| TipsPage.LikeTwiceRestores | well/app/dashboard/tips/page.tsx:122-136 | liking a tip twice restores the favourites as a set |
| TipsPage.LikeKeepsNoDuplicates | well/app/dashboard/tips/page.tsx:122-136 | the toggle keeps the favourites free of duplicates |
| TipsPage.NoDuplicatesCount | well/app/dashboard/tips/page.tsx:122-136 | in a duplicate-free list every id occurs at most once |
| TipsPage.CountAtMostOneNoDuplicates | well/app/dashboard/tips/page.tsx:122-136 | a list where every id occurs at most once is duplicate-free |
| TipsPage.TipsPageState.constructor | well/app/dashboard/tips/page.tsx:103-105 | the page starts with an empty search, the "all" tab and favourites 2 and 6, which are the liked tips of the list (`InitialLikedAreTwoAndSix`) |
| TipsPage.TipsPageState.HandleLike | well/app/dashboard/tips/page.tsx:122-136 | the favourites become `Like` of the old ones, stay duplicate-free, and the notice says "added" exactly when the tip was not liked |
| Layout.NavItemsFor | well/app/dashboard/layout.tsx:137-189 | managers get the six entries, members the three, everyone else none, and every entry is a manager entry |
| Layout.MemberNavIsSubsequenceOfManagerNav | well/app/dashboard/layout.tsx:137-189 | the member menu is the managers' menu without Teams, Projects and Reports, in the same order |
| Layout.ManagementPagesOnlyForManagers | well/app/dashboard/layout.tsx:137-189 | Teams, Projects and Reports are offered exactly to "project_manager" and "admin" |
| Layout.BackendManagerRoleHasNoMenu | well/app/dashboard/layout.tsx:137-189 | the backend's privileged role "manager" gets no menu at all |
| Layout.AtMostOneActive | well/app/dashboard/layout.tsx:216 | whatever the role and path, at most one entry is highlighted |
| Layout.NestedPathHighlightsNothing | well/app/dashboard/layout.tsx:216 | a page nested below an entry highlights nothing |
| Layout.RedirectTarget | well/app/dashboard/layout.tsx:129-134 | the shell redirects to "/login" exactly when loading has finished and there is no user |
| Layout.SidebarState.constructor | well/app/dashboard/layout.tsx:106-107 | the shell starts in desktop mode with the sidebar open |
| Layout.SidebarState.Resize | well/app/dashboard/layout.tsx:113-127 | the mode follows the width (below 768 is mobile); a change of mode opens the sidebar on desktop and closes it on mobile; otherwise it stays as it was |
| Layout.SidebarState.Close | well/app/dashboard/layout.tsx:204-242 | the close button and the overlay close the sidebar |
| Layout.SidebarState.Open | well/app/dashboard/layout.tsx:247 | the menu button opens the sidebar |
| Layout.SidebarState.Toggle | well/app/dashboard/layout.tsx:254 | the collapse button flips the sidebar |
| Layout.MountAt | well/app/dashboard/layout.tsx:106-127 | the shell mounted at a width has its sidebar closed exactly when the width is mobile, so no overlay shows |

## Left out

- Face detection and the camera: the face-api models, `getUserMedia` and the canvas frame are inputs. Detections are a parameter of `CaptureSelfie`, and scores are integers instead of floats.
- Rendering: markup, toasts, charts (only their data points are modelled), the PDF export of the reports page, and the live clock of the check-in page.
- Network and asynchrony: each request is modelled by its outcome, which is a parameter. The `loading` flags and the `isLoading` spinners are not modelled.
- Pages outside the model: `use-auth`, the settings page and the landing page. The `well/lib/api.ts` client is not part of this model.
- Routes outside the model:
  - the list joins of `GET /api/projects` and `/api/projects-with-team`;
  - `GET /api/teams`;
  - `GET /api/user/profile`;
  - `GET /api/users`.
  Their replies enter the pages as inputs.
- Infrastructure treated as abstract: MongoDB, JWT signing and verification, bcrypt (a collision-free hash that remembers its password), and `time.Now()` (a parameter).
- Auth.Authenticate: the "Invalid token claims" branch is not modelled. A verified token always has a claims map.
- UserRoutes.UserStore.Register: bcrypt's 72-byte password limit is folded into the `hashFails` input.
- UserRoutes.RegisterThenLogin: "no other password" rests on the collision-free hash. bcrypt reads at most 72 bytes of a password, so a stored 72-byte password also matches itself followed by any suffix; that acceptance is not modelled.
- ProjectRoutes.ParseDate: the value is a calendar date. Go's `time.Time` (location, monotonic clock, nanoseconds) is not modelled.
- DashboardPage.FindToday: the browser's local calendar (`setHours(0,0,0,0)`, `getHours`, `getMonth`, `getFullYear`) enters as the parameters `dayOf`, `hourOf`, `monthOf` and `yearOf`. The model does not decompose time zones.
- Text.Lower: `toLowerCase` is modelled for ASCII letters only. Other Unicode case mappings are not modelled.
- ReportsPage.GetUserSummaries: JavaScript object key order is modelled as first-insertion order. This matches for the non-numeric id strings the backend produces, but not for integer-like keys.
- DashboardPage.BuildMoodHistory: a `createdAt` that does not parse as a date is not modelled. Records are dated with an integer time or have none.
- ProjectsPage.ProjectsPageState.OpenEditDialog: `toISOString` is the parameter `isoDay`. The RangeError that an invalid date would throw is not modelled.
- ProjectsPage.ProjectsPageState.OpenEditDialog: team entries that are objects (`t._id || t.id`) are not modelled. Team lists are lists of id strings.
- TeamsPage.TeamsPageState.OpenEditDialog: member and lead entries that are objects are not modelled. They are id strings.
- CheckinPage.CheckinPageState.SelectTab: the tab widget's own behaviour is taken as given. That behaviour is that a disabled trigger ignores clicks, and `onValueChange` selects the clicked tab.
