# Plovster complaints front end — a Dafny model

Plovster's web client does two jobs.

- **Complaint wizard.** Members of the public file a complaint about a branch through a four-step wizard:
  1. name and branch;
  2. the problem;
  3. a suggestion;
  4. contact details and a star rating.

  A bot-verification token is required before the complaint is posted.
- **Admin area.** Staff sign in on the admin page and work in the dashboard:
  - a paginated, filterable complaints table (15 per page) with a details view, where the status and an admin comment can be changed;
  - branch management;
  - user management.

  The admin-only controls are gated on the role string kept in the browser's session store.

The model has seven modules:

- `Common`: `Option`, the abstract request outcome `Reply` (`Ok(body)` or `Failed`) and the `Branch` record.
- `JsStrings`: the JavaScript string operations the client's checks rely on.
  - `length` counts UTF-16 code units.
  - `trim` removes the whitespace and line terminators of ECMA-262, sections 12.2 and 12.3.
- `ComplaintWizard`: the complaint schema, the step gate, the star and step-indicator displays, and the class `Wizard`, which holds the wizard's screen state.
- `Session`: the session keys `token` and `userRole`, what login writes and logout removes, and the browser store as the class `Storage`.
- `AdminLogin`: the class `LoginPage`, which covers the mount redirect, the login request and the loading flag.
- `AdminDashboard`:
  - the listing query parameters, the page count, pagination, the local patch after an update and the role gating;
  - the class `Dashboard`, with one method per handler.
- `Scenarios`: client methods that drive the classes through whole journeys, using only their contracts. SignIn and FirstFetchAsAdmin have rows. The other journeys have no row and no contract of their own: SubmitAndReset, FailedSubmitKeepsToken, SecondPostWhileInFlight, NextPageFetches, SortChangeFetches and SignOut. Each checks its journey with assertions on the class contracts. FillInSteps is their shared helper, and its ensures only report the state it leaves.

Network requests are not executed. Each handler that awaits a request takes the outcome as a `Reply` parameter.

- Two handlers are split at the await: the wizard's submission (`BeginSubmit`/`FinishSubmit`) and the login (`BeginLogin`/`FinishLogin`). Each pair brackets one request, so the in-flight flag is visible between the two halves.
- Every other handler is one atomic step, and so is the dashboard's data fetch. This includes the dashboard handlers that also show an in-flight flag; "## Left out" lists what that loses.
- The tab, branch filter, sort order and page are the dependencies of the dashboard's fetch effect. Each method that sets one of them reports `refetch` exactly when the value changed.
- Browser dialogs, redirects and the fire-and-forget refetch become results or fields:
  - `confirm` is a `confirmed` parameter;
  - `alert` is an `alerted` result;
  - `router.push` is `redirectedTo`;
  - the refetch is a `refetch` result.

## Model

| member | source | states |
|---|---|---|
| JsStrings.CodeUnits | components/forms/ComplaintWizard.tsx:19 | a character takes one or two UTF-16 code units |
| JsStrings.JsLength | components/forms/ComplaintWizard.tsx:19-22 | the JavaScript length of a string is at least its number of characters and at most twice that |
| JsStrings.JsLengthAppend | components/forms/ComplaintWizard.tsx:19-22 | the length of a concatenation is the sum of the lengths |
| JsStrings.JsLengthOfBmp | components/forms/ComplaintWizard.tsx:19-22 | for text made only of Basic Multilingual Plane characters, the length limits count characters |
| JsStrings.IsWhitespace | app/admin/dashboard/page.tsx:132 | the characters `trim` removes: the WhiteSpace and LineTerminator code points of ECMA-262; TrimDropsOnlyWhitespace and TrimEmptyIffBlank state what trim does with them |
| JsStrings.TrimStart | app/admin/dashboard/page.tsx:132 | returns a suffix of the input that does not start with whitespace |
| JsStrings.TrimStartDropsWhitespace | app/admin/dashboard/page.tsx:132 | every character TrimStart removes is whitespace |
| JsStrings.TrimEnd | app/admin/dashboard/page.tsx:132 | returns a prefix of the input that does not end with whitespace |
| JsStrings.TrimEndDropsWhitespace | app/admin/dashboard/page.tsx:132 | every character TrimEnd removes is whitespace |
| JsStrings.Trim | app/admin/dashboard/page.tsx:132 | a trimmed string has no whitespace at either end |
| JsStrings.TrimSlice | app/admin/dashboard/page.tsx:135 | the trimmed string is the contiguous slice of the input that starts after the leading whitespace |
| JsStrings.TrimOffset | app/admin/dashboard/page.tsx:135 | helper for TrimSlice: where the trimmed slice starts, never past the end |
| JsStrings.SliceOfSuffix | app/admin/dashboard/page.tsx:135 | helper for TrimSlice: a prefix of a suffix is the slice between them |
| JsStrings.TrimDropsOnlyWhitespace | app/admin/dashboard/page.tsx:135 | every character cut off before or after that slice is whitespace |
| JsStrings.TrimEmptyIffBlank | app/admin/dashboard/page.tsx:156 | a trimmed string is empty (falsy) exactly when the input is empty or all whitespace |
| JsStrings.TrimIdempotent | app/admin/dashboard/page.tsx:135 | the name that is sent is already trimmed: trimming it again changes nothing |
| ComplaintWizard.FullNameValid | components/forms/ComplaintWizard.tsx:19 | the name is present and 2..100 UTF-16 units long; SchemaValidIff and StepGate state its role |
| ComplaintWizard.BranchValid | components/forms/ComplaintWizard.tsx:20 | a branch is chosen: present and at least 1 unit long |
| ComplaintWizard.ProblemValid | components/forms/ComplaintWizard.tsx:21 | the problem is present and 10..1000 units long |
| ComplaintWizard.SolutionValid | components/forms/ComplaintWizard.tsx:22 | the suggestion is absent or at most 1000 units long |
| ComplaintWizard.RatingValid | components/forms/ComplaintWizard.tsx:24 | the rating is absent or in 1..5 |
| ComplaintWizard.FieldValid | components/forms/ComplaintWizard.tsx:18-25 | each field's rule from the schema; the contact is unconstrained; EditTouchesOneField states that each rule reads its own field only |
| ComplaintWizard.ValidateFields | components/forms/ComplaintWizard.tsx:88 | validating a list of fields passes exactly when every listed field satisfies its schema rule; an empty list passes |
| ComplaintWizard.SchemaValid | components/forms/ComplaintWizard.tsx:94 | the whole-schema check that runs before the submit handler; SchemaValidIff states it field by field and BeginSubmit sends a post only when it holds |
| ComplaintWizard.StepValid | components/forms/ComplaintWizard.tsx:84-88 | "next" on a step passes when that step's fields pass; StepGate states it for each step |
| ComplaintWizard.SchemaValidIff | components/forms/ComplaintWizard.tsx:18-25 | the schema holds exactly when all of these hold: name 2..100 long, branch non-empty, problem 10..1000 long, suggestion absent or at most 1000 long, rating absent or 1..5; the contact is unconstrained |
| ComplaintWizard.StepGate | components/forms/ComplaintWizard.tsx:83-90 | step 1 passes exactly when the name and branch are valid; step 2 exactly when the problem is valid; every other step always passes |
| ComplaintWizard.FieldsToValidate | components/forms/ComplaintWizard.tsx:84-86 | the fields "next" checks: name and branch on step 1, the problem on step 2, none otherwise; its consequences are stated by StepGate |
| ComplaintWizard.EditTouchesOneField | components/forms/ComplaintWizard.tsx:18-25 | typing into one field never changes whether another field is valid |
| ComplaintWizard.WithText | components/forms/ComplaintWizard.tsx:312 | the form after a value is typed or picked for one text field; EditTouchesOneField and EnterText state what it changes |
| ComplaintWizard.SubmitEnabled | components/forms/ComplaintWizard.tsx:538 | the submit button is enabled exactly when nothing is in flight and a non-empty token is present; BeginSubmit states what a click does then |
| ComplaintWizard.CurrentRating | components/forms/ComplaintWizard.tsx:81 | the saved rating, or 0 when it is absent or 0 |
| ComplaintWizard.ShownRating | components/forms/ComplaintWizard.tsx:463 | a non-zero hover wins over the saved rating |
| ComplaintWizard.StarActive | components/forms/ComplaintWizard.tsx:463 | a star is lit when the shown rating reaches it; HoverOverridesRating and ActiveStarsCount state the consequences |
| ComplaintWizard.HoverOverridesRating | components/forms/ComplaintWizard.tsx:463 | while a star is hovered, a star is lit exactly when it is at or below the hovered one, whatever the saved rating; otherwise the lit stars follow the saved rating |
| ComplaintWizard.ActiveStars | components/forms/ComplaintWizard.tsx:462-463 | the number of lit stars among 1..n; ActiveStarsCount states its value |
| ComplaintWizard.ActiveStarsCount | components/forms/ComplaintWizard.tsx:462-463 | the lit stars always form a prefix: stars 1..k, where k is the hovered star or else the rating, clamped to the row |
| ComplaintWizard.IndicatorActive | components/forms/ComplaintWizard.tsx:229 | indicator i is active on step i + 1; IndicatorsConsistent states the consequences |
| ComplaintWizard.IndicatorCompleted | components/forms/ComplaintWizard.tsx:230 | indicator i is completed on every later step |
| ComplaintWizard.IndicatorsConsistent | components/forms/ComplaintWizard.tsx:229-230 | at most one indicator is active; none is both active and completed; on steps 1..4 the current one is active; an indicator is completed exactly when it lies before the current step |
| ComplaintWizard.Wizard.Valid | components/forms/ComplaintWizard.tsx:41-44 | the wizard's invariant: the step is in 1..4 and the hovered star in 0..5; the constructor and every handler keep it |
| ComplaintWizard.Wizard.constructor | components/forms/ComplaintWizard.tsx:42-48 | the wizard starts on step 1, not submitting, not successful, no hover, branches loading, no token, empty form |
| ComplaintWizard.Wizard.FetchBranches | components/forms/ComplaintWizard.tsx:51-65 | loading ends either way; the branch list is the reply's list, or empty after a failure |
| ComplaintWizard.Wizard.EnterText | components/forms/ComplaintWizard.tsx:312 | typing sets that one form field to the text |
| ComplaintWizard.Wizard.RateStar | components/forms/ComplaintWizard.tsx:468 | clicking a star saves its number as the rating, which then satisfies the schema |
| ComplaintWizard.Wizard.HoverStar | components/forms/ComplaintWizard.tsx:469 | entering a star records it as hovered |
| ComplaintWizard.Wizard.LeaveStar | components/forms/ComplaintWizard.tsx:470 | leaving a star clears the hover |
| ComplaintWizard.Wizard.SetCaptchaToken | components/forms/ComplaintWizard.tsx:491-494 | the token is whatever the widget reports, null included |
| ComplaintWizard.Wizard.NextStep | components/forms/ComplaintWizard.tsx:83-90 | advances exactly one step when the current step's fields are valid, otherwise stays; the step stays in 1..4 |
| ComplaintWizard.Wizard.PrevStep | components/forms/ComplaintWizard.tsx:92 | goes back exactly one step, without validating |
| ComplaintWizard.Wizard.BeginSubmit | components/forms/ComplaintWizard.tsx:94-101 | a post is sent exactly when the whole schema holds and a non-empty token is present, and it carries the form data plus the token; with a valid form but no token the user is alerted; a post sets the submitting flag and no post leaves it alone; when the submit button is enabled, a click posts exactly when the form is valid; a post already in flight does not block another, as Enter on step 1 can submit again |
| ComplaintWizard.Wizard.FinishSubmit | components/forms/ComplaintWizard.tsx:100-108 | success shows the success screen; failure alerts and keeps everything else; a success screen already shown stays; submitting ends either way, even with another post still in flight |
| ComplaintWizard.Wizard.Reset | components/forms/ComplaintWizard.tsx:193-198 | leaves the success screen for step 1, with an empty form and no token |
| Common.Truthy | components/forms/ComplaintWizard.tsx:95 | JavaScript truthiness of a string or null: present and non-empty, the same check as at ComplaintWizard.tsx:538 and app/admin/page.tsx:22; SubmitEnabled, BeginSubmit and RedirectsOnMount use it |
| Session.Get | app/admin/page.tsx:21 | reading a key gives its stored value, or null when the key is absent |
| Session.WriteSession | app/admin/page.tsx:31-32 | after login both session keys hold the token and the role; every other key keeps its value |
| Session.ClearSession | app/admin/dashboard/page.tsx:125-129 | after logout neither session key is present; every other key keeps its value |
| Session.LoginThenLogout | app/admin/dashboard/page.tsx:126-127 | logout removes exactly what login wrote: logging in then out equals logging out alone |
| Session.LogoutIdempotent | app/admin/dashboard/page.tsx:126-127 | logging out twice is logging out once |
| Session.SameAnswersSameStore | app/admin/page.tsx:21 | helper for LoginThenLogout and LogoutIdempotent: two stores that answer every `getItem` alike are equal |
| Session.Storage.constructor | app/admin/page.tsx:21 | the store starts with the given entries |
| Session.Storage.GetItem | app/admin/dashboard/page.tsx:106 | a read answers from the current entries |
| Session.Storage.SetItem | app/admin/page.tsx:31 | a write sets that key and nothing else |
| Session.Storage.RemoveItem | app/admin/dashboard/page.tsx:126 | a removal drops that key and nothing else |
| AdminLogin.MountAfterLoginAndLogout | app/admin/page.tsx:20-25 | after a login the sign-in page redirects exactly when the issued token is non-empty; after a logout it never redirects |
| AdminLogin.RedirectsOnMount | app/admin/page.tsx:21-22 | the mount check redirects exactly when a non-empty token is stored |
| AdminLogin.LoginPage.constructor | app/admin/page.tsx:16 | the page starts not loading and without a redirect |
| AdminLogin.LoginPage.Mount | app/admin/page.tsx:20-25 | redirects to the dashboard exactly when a non-empty token is stored; the store is only read |
| AdminLogin.LoginPage.BeginLogin | app/admin/page.tsx:27-30 | with an empty username or password nothing is sent and nothing changes, because both inputs are `required`; otherwise the credentials are sent as entered and the loading flag is set |
| AdminLogin.LoginPage.FinishLogin | app/admin/page.tsx:30-38 | a rejected login alerts and writes nothing; a reply with a user stores the token and the role and redirects; a reply without a user stores the token, then alerts, and does not redirect; loading ends on every path |
| AdminDashboard.QueryParams | app/admin/dashboard/page.tsx:87 | the listing request always starts with the page and a page size of 15 |
| AdminDashboard.QueryParamsLookup | app/admin/dashboard/page.tsx:87-91 | the value the request carries for any key: page, 15, the branch (complaints tab and not "all" only), the sort (complaints tab and non-empty only), nothing else |
| AdminDashboard.QueryParamsLookups | app/admin/dashboard/page.tsx:87-91 | the same four facts, stated together for the four keys |
| AdminDashboard.LookupAppend | app/admin/dashboard/page.tsx:87-91 | helper for QueryParamsLookup: adding a parameter keeps every earlier key's value and answers for a new key |
| AdminDashboard.EffectiveTotalPages | app/admin/dashboard/page.tsx:100 | the page count is the server's count when present and non-zero, otherwise exactly 1; it is never 0 |
| AdminDashboard.PrevTarget | app/admin/dashboard/page.tsx:508 | "previous" targets one page back, never below 1; PaginationStaysInRange and PaginationBounds state the consequences |
| AdminDashboard.NextTarget | app/admin/dashboard/page.tsx:517 | "next" targets one page on, never past the last page |
| AdminDashboard.PrevEnabled | app/admin/dashboard/page.tsx:509 | "previous" is enabled except on page 1 |
| AdminDashboard.NextEnabled | app/admin/dashboard/page.tsx:518 | "next" is enabled except on the last page |
| AdminDashboard.PaginationStaysInRange | app/admin/dashboard/page.tsx:508-518 | within 1..totalPages both buttons keep the page in range; a button is disabled exactly when clicking it would change nothing; an enabled one moves by exactly one page |
| AdminDashboard.PaginationBounds | app/admin/dashboard/page.tsx:508-517 | "previous" never goes below 1 and "next" never past the last page |
| AdminDashboard.NextFromBeyondLastPage | app/admin/dashboard/page.tsx:517-518 | when the page lies past the last page, "next" is enabled and moves back to the last page |
| AdminDashboard.ApplyChangesOneField | app/admin/dashboard/page.tsx:789 | a status or comment patch changes only that field, and applying it twice equals applying it once |
| AdminDashboard.Apply | app/admin/dashboard/page.tsx:789 | a complaint with the patched status or comment replaced (the same spread serves the comment at line 828); ApplyChangesOneField states what it changes |
| AdminDashboard.PatchById | app/admin/dashboard/page.tsx:789 | the patched list has the same length and the same ids; the entries with the id are patched and all others are unchanged |
| AdminDashboard.PatchChangesAtMostOne | app/admin/dashboard/page.tsx:789 | with unique ids, at most one entry changes |
| AdminDashboard.PatchAbsentId | app/admin/dashboard/page.tsx:828 | patching an id that is not listed leaves the list unchanged |
| AdminDashboard.PatchIdempotent | app/admin/dashboard/page.tsx:828 | patching twice equals patching once |
| AdminDashboard.IsAdmin | app/admin/dashboard/page.tsx:183 | the user is an admin exactly when the stored role is "admin" |
| AdminDashboard.Visible | app/admin/dashboard/page.tsx:221 | which controls are rendered: nothing before the first fetch ends, the admin-only controls (lines 221, 551, 568, 594, 775) for the "admin" role only, the filters and pager on the complaints tab; RoleGating states the consequences |
| AdminDashboard.AdminOnly | app/admin/dashboard/page.tsx:221 | the controls behind `isAdmin` (lines 221, 551, 568, 594, 775): the users tab and panel, branch deletion, the add-branch form, the status and comment editors; RoleGating states the consequences |
| AdminDashboard.RoleGating | app/admin/dashboard/page.tsx:183 | the admin-only controls show only for the role "admin", and for an admin each shows where its tab or the details view is open; the other controls do not depend on the role |
| AdminDashboard.Dashboard.constructor | app/admin/dashboard/page.tsx:51-82 | the initial state: complaints tab, empty lists, loading, branch filter "all", sort "date_desc", page 1 of 1, empty inputs, manager role |
| AdminDashboard.Dashboard.CurrentView | app/admin/dashboard/page.tsx:175-183 | the inputs of the render: the first-load spinner, the stored role, the tab and whether the details view is open; the handlers' preconditions use it to require that their control is rendered |
| AdminDashboard.Dashboard.FetchData | app/admin/dashboard/page.tsx:84-119 | sends the query parameters; if the batch fails, nothing changes; otherwise the list, the page count, the branches and the analytics (on success only) are replaced, and the role is read from the store; the users are requested only for an admin, and replaced on success; loading ends on every path |
| AdminDashboard.Dashboard.ApplyBatch | app/admin/dashboard/page.tsx:99-111 | the updates a successful batch makes, in the order listed for FetchData |
| AdminDashboard.Dashboard.SelectTab | app/admin/dashboard/page.tsx:200-223 | switches to the chosen tab, the users tab only when its button is shown; a refetch follows exactly when the tab changed |
| AdminDashboard.Dashboard.SelectBranchFilter | app/admin/dashboard/page.tsx:391-399 | sets the filter to "all" or to a listed branch name, keeping the page; a refetch follows exactly when the filter changed |
| AdminDashboard.Dashboard.SelectSortOrder | app/admin/dashboard/page.tsx:405-413 | sets one of the four sort orders, keeping the page; a refetch follows exactly when the order changed |
| AdminDashboard.Dashboard.PrevPage | app/admin/dashboard/page.tsx:508 | the page becomes one back, never below 1; a refetch follows exactly when the page changed |
| AdminDashboard.Dashboard.NextPage | app/admin/dashboard/page.tsx:517 | the page becomes one on, never past the last page; a refetch follows exactly when the page changed |
| AdminDashboard.Dashboard.Logout | app/admin/dashboard/page.tsx:125-129 | the store loses both session keys and nothing else, and the page goes to the sign-in page |
| AdminDashboard.Dashboard.EditNewBranchName | app/admin/dashboard/page.tsx:578 | the branch-name input takes the typed text |
| AdminDashboard.Dashboard.AddBranch | app/admin/dashboard/page.tsx:131-143 | a blank name sends nothing and changes nothing; otherwise the trimmed name is sent; success clears the input and refetches, failure alerts and keeps the input |
| AdminDashboard.Dashboard.DeleteBranch | app/admin/dashboard/page.tsx:145-153 | nothing is sent unless the user confirms; after confirmation the delete is sent, success refetches and failure alerts |
| AdminDashboard.Dashboard.EditNewUser | app/admin/dashboard/page.tsx:644-660 | the username, password and role inputs take the entered values |
| AdminDashboard.Dashboard.AddUser | app/admin/dashboard/page.tsx:155-173 | nothing is sent unless both the trimmed username and the trimmed password are non-empty; the request carries the trimmed username, the password as typed and the role; success clears the inputs, resets the role to manager and refetches; failure alerts and keeps the inputs |
| AdminDashboard.Dashboard.OpenDetails | app/admin/dashboard/page.tsx:480 | the details view shows the chosen row |
| AdminDashboard.Dashboard.CloseDetails | app/admin/dashboard/page.tsx:689 | the details view closes |
| AdminDashboard.Dashboard.ChangeStatus | app/admin/dashboard/page.tsx:783-795 | runs only for a status different from the one shown, since the select reports only a change; sends the new status for the selected complaint; only after success do the details view and every listed entry with that id show the new status, all other entries unchanged; failure alerts and changes neither |
| AdminDashboard.Dashboard.EditComment | app/admin/dashboard/page.tsx:818 | typing edits the comment of the selected complaint only; the list is unchanged |
| AdminDashboard.Dashboard.SaveComment | app/admin/dashboard/page.tsx:824-834 | sends the selected complaint's comment; after success the list entries with that id take it over; failure alerts and leaves the list as it was |
| Scenarios.SignIn | app/admin/page.tsx:27-33 | signing in on a fresh browser leaves exactly the token and the role "admin" in the store, after an attempt with an empty password that sent nothing |
| Scenarios.FirstFetchAsAdmin | app/admin/dashboard/page.tsx:84-111 | with an admin session the first fetch loads the users and takes the page count and analytics from the reply, without touching the page, tab or filter |

## Left out

- Rendering is not modelled: animations, styling, icons, the progress-bar width and the success-screen particles, which are floating-point geometry. The mobile menu is also left out: it repeats the sidebar's tab and logout buttons, and those are modelled once.
- The HTTP client, the backend and the reCAPTCHA widget are not part of this model. Each request outcome is a `Reply` parameter, and each token is a parameter of `SetCaptchaToken`.
- The form library and the schema library are reduced to what the client relies on:
  - the whole schema is checked before the submit handler runs;
  - `trigger` checks a list of fields;
  - the values are held in `FormData`.
  - Left out: error messages, the `onChange` re-validation, and the rule that a mounted but untouched input reads as `""` rather than undefined. `FormData` keeps `None` there, which the schema rejects all the same for name, branch and problem.
- AdminDashboard.Dashboard.FetchData is one atomic step. `fetching` is set and cleared inside it, so it is never seen set. Two fetches whose replies arrive out of order are not modelled, and neither is a fetch interleaved with a mutation.
- AdminDashboard.Dashboard.AddBranch is one atomic step. `branchSubmitting` is never seen set, so its `!branchSubmitting` precondition always holds. The button it disables and a second click during the request are not modelled.
- AdminDashboard.Dashboard.AddUser is one atomic step. `userSubmitting` is never seen set, so its `!userSubmitting` precondition always holds. The button it disables and a second click during the request are not modelled.
- AdminDashboard.Dashboard.ChangeStatus is one atomic step. `statusUpdating` is never seen set. The closure keeps the complaint it started with, and that interleaving is lost: if the details view is closed while the update is in flight, success reopens it with the new status.
- AdminDashboard.Dashboard.SaveComment is one atomic step. `commentSaving` is never seen set. The closure keeps the list it started with, so success can overwrite a list that a fetch replaced meanwhile; that is not modelled.
- The refetch after adding a branch, deleting a branch or adding a user is only reported (`refetch`). Its effect is `FetchData` called again.
- `console.error` logging is left out.
- On the sign-in page, the show-password toggle is left out. Writing the string "undefined" when a login reply has no token is also left out: the model takes the token as a string.
- `globalAvgRating` is a `real` that is only stored and displayed, never computed.
- Dates (`createdAt`) are kept as opaque strings and never compared.
- The posted patch body drops an `adminComment` that is undefined. `SaveComment` keeps it as `None` in the request.
- The listing's pager is shown on the complaints tab only. The model does not constrain how the page relates to the page count after a fetch, and `NextFromBeyondLastPage` describes that case.
