# Service marketplace front end: the decision logic of its screens

This project models the React front end of a home-services marketplace. Customers book jobs. Admins publish jobs and assign providers to bookings. Providers start and complete the jobs assigned to them.

The front end is view markup around fetch calls, so the model keeps the decisions the views make:

- **Booking-status vocabulary.** The shared status table (`Marketplace`, `StatusConfig`), the status badge and its fallback (`StatusBadge`), and the job card's own label/tone table, the text its status chip shows, and its actions (`JobCard`). The card computes a label per status but hands it to the shared `Ui` badge as children, which that badge does not render; the chip shows the tone word instead.
- **Per-screen workflow guards.** Each screen becomes a class whose fields are the component's state. There is one class each for `ProviderDashboard`, `AdminDashboard`, `AdminBookings`, `CustomerDashboard`, `BookingModal` and `AdminProviders`.
  - Every awaited handler is split at its `await`. `Begin…` runs up to the request; `Finish…` takes the request's outcome. The busy flag held during the call is therefore a state the model can reach and state facts about.
  - `Workflow` compares the screens' rules where they disagree. Each screen keeps its own rule.
- **Form validators.** The e-mail and password predicates, the sign-up check order, the required fields of both booking forms, the service toggle, and the `scheduledAt` string (`Login`, `Signup`, `CustomerDashboard`, `BookingModal`). JavaScript's `trim`, ASCII lower-casing and UTF-16 `length` live in `JsStrings`.
- **Session state machine** (`Auth`). It has the user, the `loading` flag and the session-storage token. The operations are bootstrap, log-in and log-out.
- **Route resolution** (`App`). A function from (loading, user, path) to "render a page" or "redirect". The two callbacks the shell hands to the sign-in and sign-up pages are modelled too.

Modelling conventions:

- Every HTTP call is a parameter of the operation that makes it: `Outcome` (done or failed with a message) or `Response<T>` (a value or a failure message).
- `window.confirm` is a `bool` parameter.
- Statuses are the raw strings the server sends. Any other string is a possible status.

## Model

| member | source | states |
|---|---|---|
| StatusConfig.KnownLabels | src/utils/status.js:1-18 | CREATED is labelled "Booked"; ASSIGNED, IN_PROGRESS and COMPLETED are labelled "Assigned", "In Progress" and "Completed" |
| StatusConfig.TableKeys | src/utils/status.js:1-18 | the table has exactly the four keys CREATED, ASSIGNED, IN_PROGRESS, COMPLETED; CANCELLED has no entry |
| StatusConfig.LabelsNonEmpty | src/utils/status.js:1-18 | every configured label is non-empty |
| StatusConfig.LabelsDistinct | src/utils/status.js:1-18 | two statuses with the same label are the same status |
| StatusConfig.StatusOfLabel | src/utils/status.js:1-18 | the inverse lookup returns a status whose label is the given text, and returns nothing only when no status has that label |
| StatusConfig.LabelDeterminesStatus | src/utils/status.js:1-18 | the inverse lookup of a status's label gives back that status |
| StatusBadge.BadgeFor | src/components/StatusBadge.jsx:12-49 | the badge is total: for every input, present or missing, it has non-empty text, and it uses the configured style exactly when the status is in the table |
| StatusBadge.KnownStatusShowsLabel | src/components/StatusBadge.jsx:12 | a configured status shows its configured label (line 49) |
| StatusBadge.UnknownStatusShowsRaw | src/components/StatusBadge.jsx:14-25 | an unknown, non-empty status shows the raw string on the neutral badge |
| StatusBadge.MissingStatusShowsUnknown | src/components/StatusBadge.jsx:25 | a missing or empty status shows "Unknown" |
| StatusBadge.CancelledShowsRaw | src/components/StatusBadge.jsx:14-25 | CANCELLED takes the fallback path and shows the raw "CANCELLED" |
| StatusBadge.TextDoesNotDetermineStatus | src/components/StatusBadge.jsx:14-25 | the raw status "Booked" shows the same text as CREATED, but the badges differ because only one is configured |
| StatusBadge.ConfiguredTextDeterminesStatus | src/components/StatusBadge.jsx:12-49 | two configured badges with the same text belong to the same status |
| JobCard.MetaFor | src/components/JobCard.jsx:26-29 | the `meta` object: the table's entry for a known status, otherwise the status itself as label with the default tone (its properties are the three lemmas below) |
| JobCard.KnownStatusMeta | src/components/JobCard.jsx:3-9 | each of the five known statuses gets its listed label and tone, e.g. CREATED gets "New Request"/warning |
| JobCard.UnknownStatusMeta | src/components/JobCard.jsx:26-29 | any other status is labelled with itself, with the default tone |
| JobCard.LabelEmptyOnlyForEmptyStatus | src/components/JobCard.jsx:3-29 | the computed label is empty exactly when the status is the empty string |
| JobCard.ToneName | src/components/JobCard.jsx:3-9 | the tone word of each tone (helper of ChipText) |
| JobCard.ChipText | src/components/JobCard.jsx:40-42 | the chip's text is the tone word (the shared badge of src/components/Ui.jsx:47-60 renders only its `status` prop): always one of warning, info, success, default, and "default" exactly for CANCELLED and unknown statuses |
| JobCard.ChipShowsTone | src/components/Ui.jsx:47-60 | CREATED shows "warning", ASSIGNED and IN_PROGRESS both "info", COMPLETED "success", CANCELLED "default"; a known status never shows its label; the text is never a key of the badge's colour table, so the chip always gets the "Pending" colour |
| JobCard.Buttons | src/components/JobCard.jsx:68-88 | at most one button; "Accept" is offered iff the status is CREATED; "Mark Complete" is offered iff it is ASSIGNED or IN_PROGRESS; every button is disabled exactly when `loading` is set |
| JobCard.NoActionsOutsideOpenStatuses | src/components/JobCard.jsx:68-88 | COMPLETED, CANCELLED and every unknown status offer no action |
| JobCard.LoadingDisablesActions | src/components/JobCard.jsx:71-86 | while loading, every offered button is disabled and shows its in-progress caption |
| Marketplace.CountWithStatus | src/pages/ProviderDashboard.jsx:61-65 | a status filter's count is at most the number of items |
| Marketplace.CountDisjointUnion | src/pages/CustomerDashboard.jsx:87-93 | the counts for two disjoint status sets add up to the count for their union |
| Marketplace.CountsOfDisjointBounded | src/pages/CustomerDashboard.jsx:87-93 | the counts for two disjoint status sets sum to at most the number of bookings |
| Marketplace.CountZeroIff | src/pages/AdminDashboard.jsx:131 | a count is zero iff no booking has a status in the set |
| Marketplace.CountAllIff | src/pages/AdminDashboard.jsx:131 | a count equals the length iff every booking has a status in the set |
| Marketplace.NextStatus | src/pages/ProviderDashboard.jsx:98-118 | only CREATED, ASSIGNED and IN_PROGRESS have a next status, and it is the next entry of the lifecycle CREATED, ASSIGNED, IN_PROGRESS, COMPLETED |
| ProviderDashboard.Enabled | src/pages/ProviderDashboard.jsx:98-115 | a button is enabled when the job has the action's required status and is not in flight (the negation of its `disabled` expression; see EnabledIff) |
| ProviderDashboard.RequiredStatus | src/pages/ProviderDashboard.jsx:98-115 | Start needs ASSIGNED and Complete needs IN_PROGRESS (used by Enabled) |
| ProviderDashboard.TargetStatus | src/pages/ProviderDashboard.jsx:102-118 | Start requests IN_PROGRESS and Complete requests COMPLETED (see EnabledActionIsNextStep) |
| ProviderDashboard.Run | src/pages/ProviderDashboard.jsx:98-118 | a sequence of button presses whose requests the server applies, each allowed only while its button is enabled by status; the status reached, or none once a press is not allowed (see RunFollowsLifecycle) |
| ProviderDashboard.SuccessMessage | src/pages/ProviderDashboard.jsx:37-41 | "Job started successfully." for IN_PROGRESS, otherwise "Job marked as completed." (see FinishUpdateStatus) |
| ProviderDashboard.AssignedCount | src/pages/ProviderDashboard.jsx:61 | the number of ASSIGNED jobs (see SummaryCountsBounded) |
| ProviderDashboard.InProgressCount | src/pages/ProviderDashboard.jsx:65 | the number of IN_PROGRESS jobs (see SummaryCountsBounded) |
| ProviderDashboard.EnabledIff | src/pages/ProviderDashboard.jsx:98-115 | Start is enabled iff the job is ASSIGNED and not in flight; Complete iff it is IN_PROGRESS and not in flight; a job in flight has both disabled |
| ProviderDashboard.EnabledActionIsNextStep | src/pages/ProviderDashboard.jsx:98-118 | an enabled button requests exactly the lifecycle's next status (Start asks for IN_PROGRESS, Complete for COMPLETED), and at most one button is enabled |
| ProviderDashboard.RunFollowsLifecycle | src/pages/ProviderDashboard.jsx:98-118 | any sequence of enabled actions moves a job forward one lifecycle step per action and never skips a state |
| ProviderDashboard.ProviderPathFromAssigned | src/pages/ProviderDashboard.jsx:98-118 | from ASSIGNED a provider takes at most two actions and can only reach IN_PROGRESS then COMPLETED |
| ProviderDashboard.SummaryCountsBounded | src/pages/ProviderDashboard.jsx:61-65 | the assigned and in-progress counts cover disjoint statuses, so their sum is at most the number of jobs |
| ProviderDashboard.Dashboard.constructor | src/pages/ProviderDashboard.jsx:14-17 | no jobs, no error, no job in flight, no success message |
| ProviderDashboard.Dashboard.LoadJobs | src/pages/ProviderDashboard.jsx:20-27 | success replaces the jobs; failure keeps them and sets the error to the message |
| ProviderDashboard.Dashboard.BeginUpdateStatus | src/pages/ProviderDashboard.jsx:33-36 | the job is marked in flight and the request names that job and status; nothing else changes |
| ProviderDashboard.Dashboard.FinishUpdateStatus | src/pages/ProviderDashboard.jsx:37-50 | success says "Job started successfully." exactly when IN_PROGRESS was requested, else "Job marked as completed.", and clears the error; failure sets only the error; no job is in flight afterwards either way |
| AdminDashboard.AssignSelectorShown | src/pages/AdminDashboard.jsx:245 | the row's assign selector is rendered for a CREATED booking (see AssignOnlyForCreated) |
| AdminDashboard.AssignSelectorDisabled | src/pages/AdminDashboard.jsx:250 | the selector's own `disabled` condition, status other than CREATED (see AssignOnlyForCreated) |
| AdminDashboard.ProviderCell | src/pages/AdminDashboard.jsx:236 | the provider column: the provider's name, or "Unassigned" (see ProviderCellUnassigned) |
| AdminDashboard.UnassignedCount | src/pages/AdminDashboard.jsx:131 | the number of CREATED bookings (see UnassignedCountIsSelectorRows) |
| AdminDashboard.AssignOnlyForCreated | src/pages/AdminDashboard.jsx:245-250 | the assign selector is rendered only for CREATED bookings, and a rendered selector is never disabled |
| AdminDashboard.ProviderCellUnassigned | src/pages/AdminDashboard.jsx:236 | a booking without a provider shows "Unassigned"; the cell reads "Unassigned" otherwise only if the provider is named so |
| AdminDashboard.UnassignedCountIsSelectorRows | src/pages/AdminDashboard.jsx:131 | the unassigned count is at most the total, and is zero exactly when no row shows the assign selector |
| AdminDashboard.Dashboard.constructor | src/pages/AdminDashboard.jsx:16-20 | empty lists, empty form, no error, no success |
| AdminDashboard.Dashboard.LoadServices | src/pages/AdminDashboard.jsx:26-32 | success replaces the services; failure keeps them and sets the error |
| AdminDashboard.Dashboard.LoadBookings | src/pages/AdminDashboard.jsx:34-40 | success replaces the bookings; failure keeps them and sets the error |
| AdminDashboard.Dashboard.LoadProviders | src/pages/AdminDashboard.jsx:42-48 | success replaces the providers; failure keeps them and sets the error |
| AdminDashboard.Dashboard.CreateService | src/pages/AdminDashboard.jsx:58-80 | an empty name or price sets "Job name and price are required." and sends nothing; otherwise the form is sent; success clears name, price, description and error and reports success; failure sets only the error |
| AdminDashboard.Dashboard.DeleteService | src/pages/AdminDashboard.jsx:82-96 | a declined confirmation sends nothing and changes nothing; a confirmed delete sends the id, and its outcome sets either the success message or the error |
| AdminDashboard.Dashboard.AssignProvider | src/pages/AdminDashboard.jsx:97-112 | an empty provider id is a no-op; otherwise the pair is sent and the outcome sets either the success message or the error |
| AdminBookings.SelectorOffered | src/pages/AdminBookings.jsx:112 | the selector is offered unless the status is COMPLETED or CANCELLED (see SelectorOfferedIff; line 191 repeats the rule) |
| AdminBookings.SelectorDisabled | src/pages/AdminBookings.jsx:129 | a booking's selector is disabled while that booking is being assigned (see AtMostOneSelectorDisabled; line 204 repeats the rule) |
| AdminBookings.SelectedValue | src/pages/AdminBookings.jsx:128 | the selected option is the current provider's id or "" (see SelectedValueIff) |
| AdminBookings.ProviderOptions | src/pages/AdminBookings.jsx:147 | the options under the placeholder are the providers cached for that booking, none before they are loaded (line 216 repeats the rule) |
| AdminBookings.Cached | src/pages/AdminBookings.jsx:32-35 | caching adds or replaces only the entry for the booking; every other entry is kept |
| AdminBookings.LoadProvidersTwice | src/pages/AdminBookings.jsx:25-35 | a second load for the same booking after a successful one sends nothing and leaves the cache as the first load left it; after a failed first load it asks again; a booking already cached is never requested |
| AdminBookings.SelectorOfferedIff | src/pages/AdminBookings.jsx:112 | the selector is offered for every status except COMPLETED and CANCELLED, so also for CREATED, ASSIGNED and IN_PROGRESS (line 191 has the same rule) |
| AdminBookings.AtMostOneSelectorDisabled | src/pages/AdminBookings.jsx:129 | a selector is disabled only while its own booking is being assigned, so all disabled selectors belong to that one booking (line 204 has the same rule) |
| AdminBookings.SelectedValueIff | src/pages/AdminBookings.jsx:128 | the selected value is the current provider's id, or "" when there is none |
| AdminBookings.Screen.constructor | src/pages/AdminBookings.jsx:6-10 | no bookings, empty cache, loading, nothing being assigned |
| AdminBookings.Screen.LoadOnMount | src/pages/AdminBookings.jsx:14-21 | success replaces the bookings; loading ends on every path |
| AdminBookings.Screen.LoadProviders | src/pages/AdminBookings.jsx:25-36 | a cached booking makes no request and leaves the cache; otherwise availability is asked for at its time, and a success caches the list for that booking alone |
| AdminBookings.Screen.BeginAssign | src/pages/AdminBookings.jsx:40-45 | during the call `assigning` is the booking's id and the request names the booking and provider |
| AdminBookings.Screen.FinishAssign | src/pages/AdminBookings.jsx:46-49 | `assigning` is cleared whether the call succeeds or fails; the bookings are reloaded only after a success |
| CustomerDashboard.MissingRequired | src/pages/CustomerDashboard.jsx:60-65 | a booking form is rejected when name, phone, address or the time is empty (see OptionalFieldsIrrelevant and ConfirmBooking) |
| CustomerDashboard.UpcomingCount | src/pages/CustomerDashboard.jsx:87-89 | the number of CREATED, ASSIGNED and IN_PROGRESS bookings (see SummaryCountsBounded) |
| CustomerDashboard.CompletedCount | src/pages/CustomerDashboard.jsx:93 | the number of COMPLETED bookings (see SummaryCountsBounded) |
| CustomerDashboard.OptionalFieldsIrrelevant | src/pages/CustomerDashboard.jsx:60-68 | e-mail and notes never affect the required-field check, and the empty form fails it |
| CustomerDashboard.SummaryCountsBounded | src/pages/CustomerDashboard.jsx:87-93 | the upcoming and completed counts are disjoint and sum to at most the number of bookings, leaving room for the cancelled ones |
| CustomerDashboard.Dashboard.constructor | src/pages/CustomerDashboard.jsx:12-22 | no services, no bookings, no selected service, the empty form |
| CustomerDashboard.Dashboard.OpenBookingModal | src/pages/CustomerDashboard.jsx:43-45 | the given service becomes the selected one |
| CustomerDashboard.Dashboard.CloseBookingModal | src/pages/CustomerDashboard.jsx:47-57 | the selection is cleared and all six fields are reset: exactly the initial state of lines 13-22 |
| CustomerDashboard.Dashboard.ConfirmBooking | src/pages/CustomerDashboard.jsx:59-77 | a missing name, phone, address or time sends nothing and changes nothing; otherwise the service id plus every form field is sent, and a success closes and resets the modal |
| CustomerDashboard.Dashboard.LoadBookings | src/pages/CustomerDashboard.jsx:31-34 | success replaces the bookings; a failure leaves them |
| CustomerDashboard.Dashboard.LoadServices | src/pages/CustomerDashboard.jsx:26-29 | success replaces the services; a failure leaves them |
| BookingModal.TwoDigits | src/components/BookingModal.jsx:7-11 | the two-digit hour of a slot (helper of SlotsAreHours) |
| BookingModal.SlotsAreHours | src/components/BookingModal.jsx:7-11 | there are nine slots, the hours 09:00 to 17:00 in order |
| BookingModal.SlotsShape | src/components/BookingModal.jsx:7-11 | every slot is five characters long and the slots are pairwise distinct |
| BookingModal.ScheduledAt | src/components/BookingModal.jsx:34 | the string the `Date` is built from, date + "T" + time + ":00" (see ScheduledAtRoundTrip) |
| BookingModal.Modal.MissingRequired | src/components/BookingModal.jsx:29 | date, time, name, phone or address is empty; notes is optional (see BeginSubmit) |
| BookingModal.SplitScheduledAt | src/components/BookingModal.jsx:34 | a successful split gives a date and a five-character time that rebuild the string |
| BookingModal.ScheduledAtRoundTrip | src/components/BookingModal.jsx:34 | for any date and any slot, date + "T" + time + ":00" splits back into that date and time |
| BookingModal.Modal.constructor | src/components/BookingModal.jsx:14-24 | every field is empty, nothing is loading, no success, no error |
| BookingModal.Modal.SelectTime | src/components/BookingModal.jsx:159-163 | the time can only be set to one of the nine slots, so it is always empty or a slot |
| BookingModal.Modal.BeginSubmit | src/components/BookingModal.jsx:26-46 | the error is cleared first; a missing date, time, name, phone or address sets the required-fields message and sends nothing; otherwise loading is set and the request carries the service id, the built time and the fields |
| BookingModal.Modal.FinishSubmit | src/components/BookingModal.jsx:48-58 | success sets `success`; failure sets the message or "Failed to create booking" and never an empty error; loading is false afterwards whatever the outcome |
| Outcomes.MessageOr | src/components/BookingModal.jsx:55 | `message \|\| fallback`: the message when it is non-empty, otherwise the fallback |
| Auth.Bearer | src/api/client.js:6-12 | an authorization header is sent exactly when the stored token is present and non-empty, and it carries that token |
| Auth.Session.constructor | src/hooks/useAuth.js:5-6 | no user, loading, and the token the store already holds |
| Auth.Session.Bootstrap | src/hooks/useAuth.js:8-21 | no stored token: no request and no user; otherwise one profile request; a failure removes the token and leaves no user; loading is false on every path; a restored user's next request carries the bearer header |
| Auth.Session.LogIn | src/hooks/useAuth.js:23-33 | the credentials and expected role are sent as given, with no role check on the client; a failed log-in stores nothing and keeps the user; a success stores the token before the profile request, which then carries it, and the profile becomes the user |
| Auth.Session.LogOut | src/hooks/useAuth.js:35-38 | the token and the user are removed, and nothing else changes, so a second log-out changes nothing |
| Auth.LogoutThenRestart | src/hooks/useAuth.js:8-13 | after a log-out, a fresh bootstrap restores no user |
| Login.IsValidEmail | src/pages/Login.jsx:17-18 | `^\S+@\S+\.\S+$`: no whitespace, and an `@` and a later `.` with at least one character before, between and after them (shown equal to the pattern by EmailOfParts and PartsOfEmail) |
| Login.CanSubmit | src/pages/Login.jsx:20 | a valid e-mail and a non-empty password (see Form.BeginSubmit) |
| Login.Normalize | src/pages/Login.jsx:33 | `email.trim().toLowerCase()` (see NormalizeValidEmail and NormalizeIdempotent) |
| Login.EmailOfParts | src/pages/Login.jsx:17-18 | three non-empty parts without whitespace, joined as a@b.c, satisfy the e-mail pattern |
| Login.PartsOfEmail | src/pages/Login.jsx:17-18 | every address the pattern accepts splits into such three parts: the pattern and `\S+@\S+\.\S+` agree in both directions |
| Login.NormalizeValidEmail | src/pages/Login.jsx:33 | a valid address is unchanged by trimming, and its normalised form is valid too |
| Login.NormalizeIdempotent | src/pages/Login.jsx:33 | normalising twice is the same as once |
| JsStrings.Trim | src/pages/Login.jsx:33 | the result is a window `s[a..b]` of the input with only whitespace before `a` and after `b`, and it neither starts nor ends with whitespace |
| JsStrings.TrimIdempotent | src/pages/Login.jsx:33 | trimming twice is the same as once |
| JsStrings.ToLowerAscii | src/pages/Login.jsx:33 | the length is kept, no ASCII capital is left, and each character is lower-cased on its own |
| Login.RoleText | src/pages/Login.jsx:39 | the role as the template literal spells it, "undefined" when absent (helper of RoleMismatchMessage) |
| Login.RoleMismatchMessage | src/pages/Login.jsx:38-40 | "This account is not a {expectedRole} account", with "undefined" for a missing prop (see ErrorAfterLogin) |
| Login.ErrorAfterLogin | src/pages/Login.jsx:32-43 | a rejection leaves its message; a resolved user sets the error iff its role differs from the expected one, with the text "This account is not a {expectedRole} account"; nothing resolved gives the TypeError of reading `role` |
| Login.DisplayedError | src/pages/Login.jsx:56-58 | the banner shows the `error` prop when it is set, otherwise the local error |
| Login.Form.constructor | src/pages/Login.jsx:12-15 | empty fields, no local error, not loading |
| Login.Form.BeginSubmit | src/pages/Login.jsx:22-35 | the local error is cleared; an invalid form gets "Please enter a valid email and password." and calls nothing; otherwise loading is set and the trimmed, lower-cased e-mail is passed on with the password |
| Login.Form.SubmitEnabled | src/pages/Login.jsx:79 | the sign-in button is enabled when the form can be submitted and nothing is in flight (see PressSubmit) |
| Login.Form.PressSubmit | src/pages/Login.jsx:22-79 | a press of the enabled button always passes the gate: the error stays cleared, loading is set and the normalised credentials are sent, so the invalid-form branch is unreachable from the button |
| Login.Form.FinishSubmit | src/pages/Login.jsx:37-46 | the local error is the one the returned value calls for, and loading is false after every submit |
| Signup.IsAsciiLetter | src/pages/Signup.jsx:25 | the character class `[a-zA-Z]` (helper of IsStrongPassword) |
| Signup.IsDigit | src/pages/Signup.jsx:25 | the character class `\d` (helper of IsStrongPassword) |
| Signup.IsStrongPassword | src/pages/Signup.jsx:24-25 | at least 8 UTF-16 units, an ASCII letter and a digit (see StrongPasswordLength) |
| Signup.Toggled | src/pages/Signup.jsx:27-33 | the id filtered out when selected, appended when not (see ToggleSpec and ToggleTwiceAbsent) |
| Signup.SignupError | src/pages/Signup.jsx:47-67 | the message of the first failing check, or none (see SignupErrorOrder and Form.BeginSubmit) |
| Signup.StrongPasswordLength | src/pages/Signup.jsx:24-25 | a strong password has at least 8 UTF-16 units, hence at least 4 characters, and at least 8 when it is all in the basic plane |
| Signup.Without | src/pages/Signup.jsx:30 | the filter keeps exactly the other ids and never lengthens the list |
| Signup.WithoutAbsent | src/pages/Signup.jsx:30 | filtering out an absent id changes nothing |
| Signup.WithoutAppend | src/pages/Signup.jsx:30 | filtering distributes over concatenation, so the other ids keep their order |
| Signup.WithoutTwice | src/pages/Signup.jsx:30 | filtering twice is the same as once |
| Signup.ToggleSpec | src/pages/Signup.jsx:27-33 | the id is selected afterwards iff it was not before; other ids are untouched; an absent id is appended at the end |
| Signup.ToggleTwiceAbsent | src/pages/Signup.jsx:27-33 | toggling an absent id twice gives back the original list |
| Signup.SignupErrorOrder | src/pages/Signup.jsx:47-67 | missing fields, then a weak password, then a mismatch, then a provider with no services: each message is reported exactly when its check fails and all earlier ones pass |
| Signup.Form.constructor | src/pages/Signup.jsx:9-21 | empty fields, role "customer", no services, nothing selected, not loading, no error |
| Signup.Form.SetRole | src/pages/Signup.jsx:126-136 | the role buttons set only "customer" or "provider" |
| Signup.Form.ToggleService | src/pages/Signup.jsx:27-33 | the selection becomes the toggled list |
| Signup.Form.LoadServices | src/pages/Signup.jsx:36-40 | success replaces the services; failure sets "Failed to load services" |
| Signup.Form.BeginSubmit | src/pages/Signup.jsx:43-77 | the error becomes the first failing check's message, and nothing is sent while one fails; otherwise loading is set and the payload carries the fields, with the selection as `services` for providers and [] for customers |
| Signup.Form.FinishSubmit | src/pages/Signup.jsx:78-82 | a failure shows the thrown message or "Signup failed"; loading ends false either way |
| AdminProviders.TogglePrompt | src/pages/AdminProviders.jsx:41-45 | "Suspend this provider?" or "Activate this provider?" by the active flag (see TextsFollowActiveFlag) |
| AdminProviders.ToggleCaption | src/pages/AdminProviders.jsx:141-143 | "Suspend" or "Activate" by the active flag (see TextsFollowActiveFlag) |
| AdminProviders.StatusText | src/pages/AdminProviders.jsx:100-102 | "Active" or "Suspended" by the active flag (see TextsFollowActiveFlag) |
| AdminProviders.ActionsDisabled | src/pages/AdminProviders.jsx:121-136 | a provider's two buttons are disabled while an action on that provider is in flight (see DisabledOnlyWhileInFlight) |
| AdminProviders.TextsFollowActiveFlag | src/pages/AdminProviders.jsx:40-46 | the prompt asks for the action the button names (lines 141-143); both are the opposite of the badge (lines 100-102); each text flips with the flag |
| AdminProviders.DisabledOnlyWhileInFlight | src/pages/AdminProviders.jsx:121-136 | with nothing in flight no provider's buttons are disabled; while an action runs only that provider's are |
| AdminProviders.Screen.constructor | src/pages/AdminProviders.jsx:7-9 | no providers, loading, no action in flight |
| AdminProviders.Screen.LoadOnMount | src/pages/AdminProviders.jsx:11-18 | success replaces the providers; loading ends on every path |
| AdminProviders.Screen.BeginResetPassword | src/pages/AdminProviders.jsx:22-33 | a declined confirmation sends nothing and sets no flag; otherwise the provider is marked in flight and its reset is requested |
| AdminProviders.Screen.FinishResetPassword | src/pages/AdminProviders.jsx:34-37 | the in-flight flag is cleared whether the call succeeds or fails |
| AdminProviders.Screen.BeginToggleStatus | src/pages/AdminProviders.jsx:40-54 | the prompt follows the active flag; a declined confirmation sends nothing; otherwise the request asks for the opposite of the provider's active flag and the provider's buttons are disabled |
| AdminProviders.Screen.FinishToggleStatus | src/pages/AdminProviders.jsx:55-58 | the in-flight flag is cleared whether the call succeeds or fails; the list is reloaded only after a success |
| App.HomeOf | src/App.jsx:82-115 | the dashboard each known role owns (helper of Resolve; see DashboardsAreRoleGated) |
| App.DashboardRoute | src/App.jsx:82-115 | the three dashboard paths with their role and page (helper of Resolve; see DashboardsAreRoleGated) |
| App.Resolve | src/App.jsx:18-129 | one render of the shell: the loader while loading; signed out, /login, /signup or a redirect to /login; signed in, the role-gated dashboards, "/" and the fallback (its properties are the lemmas below) |
| App.Follow | src/App.jsx:18-129 | the shell's output after following at most the given number of redirects (see KnownRoleSettles and UnknownRoleNeverSettles) |
| App.LoadingShowsLoader | src/App.jsx:18 | while the session loads, the loader is shown on every path |
| App.SignedOutRoutes | src/App.jsx:21-70 | signed out, only /login and /signup render a page; every other path redirects to /login, so one redirect always reaches a page |
| App.DashboardsAreRoleGated | src/App.jsx:82-115 | a signed-in user sees a page only on "/" + role of a known role, and it is that role's dashboard; the other dashboard paths redirect to "/" |
| App.RootAndFallback | src/App.jsx:118-129 | "/" redirects to "/" + role; every other unmatched path redirects to "/" |
| App.KnownRoleSettles | src/App.jsx:82-129 | for admin, customer and provider, every path reaches the user's own dashboard within two redirects |
| App.UnknownRoleNeverSettles | src/App.jsx:82-129 | for any other role no number of redirects reaches a page: "/" and "/" + role redirect to each other |
| App.OnSignup | src/App.jsx:48-55 | registration comes first; only after it succeeds does a log-in follow, with the same e-mail and password; either failure goes to the shell's error, and the page's promise always resolves |
| App.OnLogin | src/App.jsx:28-34 | the log-in is sent with no expected role; a failure goes to the shell's error; the promise resolves with nothing either way |
| App.FailedLoginShowsServerMessage | src/App.jsx:28-35 | after a failed sign-in the page's own error is the TypeError from reading `role` of nothing, but the banner shows the server's message from the shell |
| Workflow.AdminScreensDisagreeOnAssign | src/pages/AdminBookings.jsx:112 | wherever the dashboard (AdminDashboard.jsx line 245) offers assignment the bookings screen does too, and the bookings screen also offers it for ASSIGNED and IN_PROGRESS |
| Workflow.AcceptMatchesDashboardAssign | src/components/JobCard.jsx:68 | the card offers "Accept" for exactly the bookings the admin dashboard still lets an admin assign |
| Workflow.CardAndDashboardDisagreeOnComplete | src/components/JobCard.jsx:79 | the card offers "Mark Complete" on ASSIGNED jobs, but the provider dashboard never enables Complete for them |
| Workflow.CardAndBadgeTextsDiffer | src/components/JobCard.jsx:40-42 | for none of the five statuses does the card's chip show the status badge's text (StatusBadge.jsx line 49 or 25): the chip shows a tone word, the badge a label or the raw "CANCELLED" |

## Left out

- HTTP plumbing in src/api/client.js (fetch, JSON, the base URL, error bodies) is not modelled. Only the bearer-header rule is kept. Each request is a parameter that succeeds or fails.
- Session storage is the `token` field of `Auth.Session`. It is no wider than that.
- Markup, Tailwind class strings, colours and the purely presentational components are left out. The texts the screens show and the enabled or shown conditions are kept. For the job card's chip that text is the tone word: the card's label never reaches the screen. CSS upper-casing of the chip is not modelled.
- Timers are left out: the success message's auto-clear and the booking modal's delayed close. So are alerts (treated as no-ops) and `window.confirm`'s dialog (a boolean input).
- Concurrency is not modelled. Two handlers in flight at once, or a stale response overwriting a newer one, are outside the model. A `Begin…`/`Finish…` pair is one call.
- Refetches are left out as separate steps. A reload the source starts without awaiting (provider dashboard, admin dashboard, customer dashboard) is its own `Load…` call. A reload the source awaits (bookings screen, providers screen) is a parameter of `Finish…`.
- Dates, locale and numbers are left out:
  - the `Date` object built from `scheduledAt` (the model keeps the string it is built from);
  - `toLocaleString`;
  - the "bookings today" count;
  - the date picker's minimum;
  - `Number(price)`, which is floating point and can be NaN. The price is sent as typed.
- JavaScript property lookup is not modelled. A status named after an inherited property (such as "toString") would find a value in the lookup tables; the model's tables hold only their own keys.
- Case conversion: `JsStrings.ToLowerAscii` lower-cases ASCII letters only. The engine's full Unicode case mapping is not modelled.
- Routing: React Router matches paths case-insensitively and ignores a trailing slash. The model matches exact strings. The shell's `mode` state and its `onSwitch` callbacks change nothing that is shown and are left out.
- The booking modal passes its Cancel/Confirm footer to src/components/Modal.jsx, which takes only `title`, `children` and `onClose` and so never renders it. `BookingModal.Modal.BeginSubmit` models `submit` as written, but nothing on the page can trigger it.
- The sign-up page takes only `onSignup`. The shell's `error`, which `App.OnSignup` fills on every failure, is therefore never shown there; since the callback always resolves, `Signup.Form.FinishSubmit` never shows a message for a failed registration either.
- The sign-in page's `title` and `subtitle` props, the navigation-only pages, the header, and the unfinished edit-provider modal are not part of this model.
- `Login.Form.FinishSubmit`: the text for reading `role` of `undefined` is one engine's wording. Other browsers word that TypeError differently.
- `Signup.StrongPasswordLength`: the password's `length` is counted in UTF-16 units. The model gives every character outside the basic plane two units, but it does not model strings holding lone surrogates.
- `App.Resolve` covers one render. Following redirects is modelled by `App.Follow` with a bound on the number of redirects, because the unknown-role cycle never ends.
