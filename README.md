# Grievance client view-model in Dafny

This project models the view-model of the grievance management web client. That is the set of small rules inside its React pages and services that decide:

- which requests go out, and with which bodies;
- what is written to or removed from browser storage;
- which message, alert or route follows each server answer;
- which buttons are offered;
- how grievance lists are bucketed, counted and filtered.

Rendering is not modelled. The model is written in the program's own terms:

- **Inputs.** Each server answer is a `Reply` passed in as an input: an answer with a status and a JSON body, no response, or a request that could not be made. A `window.confirm` answer is a boolean input.
- **Outputs.** Every handler returns the `Call`s it issues, the `alert` texts it raises and the route it navigates to.
- **Storage.** Browser storage is one shared `Storage.LocalStorage` object holding a map from key to stored value.

Modules, one per source file, plus three shared ones:

| module | models |
|---|---|
| `Base` | JSON values, JavaScript truthiness, `a?.k1 \|\| a?.k2 \|\| fallback` message chains, request outcomes, `String(v)` |
| `Text` | the string built-ins the rules use: `trim`, `\s`, `toUpperCase`/`toLowerCase`, `includes`, `replace` |
| `Storage` | localStorage and the `assignedGrievances` assignment cache |
| `FeatureFlags` | `src/services/featureFlagService.js` |
| `OfficerDashboard` | `src/pages/OfficerDashboard-simplified.jsx` |
| `OfficerGrievanceView` | `src/pages/OfficerGrievanceView.jsx` |
| `AdminDashboard` | `src/pages/AdminDashboard.jsx` |
| `EmployeeDashboard` | `src/pages/EmployeeDashboard.jsx` |
| `Register` | `src/pages/Register.jsx` |
| `Login` | `src/pages/Login.jsx` |
| `ApplyGrievance` | `src/pages/ApplyGrievance.jsx` |
| `AuthContext` | `src/contexts/AuthContext.jsx` |
| `GrievanceDetails` | `src/pages/GrievanceDetails.jsx` |
| `OfficerProfile` | `src/pages/OfficerProfilePage.jsx` |

Code that only computes is written as functions with lemmas. Code that changes state step by step is written as a class with methods:

- the flag service and the storage;
- each page's state, with its handlers as `modifies` methods;
- the validation and statistics loops, as methods with loop invariants proved equal to a specification function.

Each such function's properties are proved separately.

Two kinds of handler are written as a guard plus a request step: a handler that first validates and then sends, and one that first checks a flag and then sends. A named predicate (`SubmitDone`, `AssignmentApplied`, `InvestigationPosted`, `UpdateSent`) states what the request step leaves behind.

## Model

| member | source | states |
|---|---|---|
| Base.FirstMessage | src/pages/AdminDashboard.jsx:135-138 | a `message || error || fallback` chain with a non-empty fallback never yields an empty message |
| Base.FirstMessageSpec | src/contexts/AuthContext.jsx:66-69 | the chain returns the message under the first key that has one, and the fallback exactly when no key does |
| Base.StringObject | src/pages/ApplyGrievance.jsx:50-55 | a form posted as JSON has exactly the form's keys, each holding its text |
| Text.TrimEmpty | src/pages/OfficerGrievanceView.jsx:208 | `s.trim()` is empty exactly when `s` is all whitespace (the `\s` set) |
| Text.TrimStartSpec | src/pages/OfficerDashboard-simplified.jsx:41 | leading trim drops only whitespace and stops at a non-space |
| Text.TrimEndSpec | src/pages/OfficerDashboard-simplified.jsx:41 | trailing trim drops only whitespace and stops at a non-space |
| Text.CollapseSpacesNoSpace | src/pages/OfficerDashboard-simplified.jsx:41 | after `replace(/\s+/g, "_")` no whitespace remains |
| Text.CollapseSpaces | src/pages/OfficerDashboard-simplified.jsx:41 | collapsing never lengthens a string and empties only the empty string |
| Text.IndexOfSpec | src/pages/AdminDashboard.jsx:9-11 | `indexOf` reports the first occurrence, and none only when the pattern occurs nowhere |
| Text.IndexOf | src/pages/AdminDashboard.jsx:9-11 | a reported position is an actual occurrence of the pattern |
| Text.UpperIdempotent | src/pages/OfficerDashboard-simplified.jsx:41 | upper-casing twice equals upper-casing once |
| Text.Lower | src/contexts/AuthContext.jsx:96 | `toLowerCase` maps every character by itself and keeps the length |
| Text.LowerOfUpper | src/contexts/AuthContext.jsx:96 | lower-casing an upper-cased string equals lower-casing it directly |
| Text.IndexOfAbsentChar | src/pages/AdminDashboard.jsx:353 | a character that does not occur is not found |
| Text.ReplaceAllChar | src/pages/OfficerGrievanceView.jsx:190 | `replace(/_/g, ' ')` replaces every underscore and nothing else |
| Storage.ReadAssigned | src/pages/OfficerDashboard-simplified.jsx:116 | `JSON.parse` of the "assignedGrievances" entry, or `[]`, reads a missing or falsy entry as empty, an id list as itself, and fails (throws) on plain text |
| Storage.RecordAssignment | src/pages/OfficerDashboard-simplified.jsx:116-121 | the cache update fails exactly when the stored entry cannot be read; otherwise it puts the id in the list, only grows it, by at most one, keeps it duplicate-free, changes nothing when the id is present, and touches no other key |
| Storage.RecordAssignmentIdempotent | src/pages/OfficerGrievanceView.jsx:153-157 | recording the same grievance twice equals recording it once |
| Storage.LocalStorage.SetItem | src/services/featureFlagService.js:35 | `setItem` replaces exactly one key |
| Storage.LocalStorage.RemoveItem | src/contexts/AuthContext.jsx:82-85 | `removeItem` drops exactly one key |
| Storage.LocalStorage.Clear | src/contexts/AuthContext.jsx:21 | `clear` empties the store |
| FeatureFlags.Defaults | src/services/featureFlagService.js:4-8 | the defaults are exactly the three flags, with only `officer_table_view` on |
| FeatureFlags.AllFlags | src/services/featureFlagService.js:22-25 | getAllFlags returns the defaults when the entry is missing or "", the stored map when one is stored, and fails (JSON.parse throws) on any other stored entry |
| FeatureFlags.Initialized | src/services/featureFlagService.js:15-20 | initializeFlags leaves any present non-empty entry alone, readable or not, and seeds the defaults otherwise; afterwards an entry is stored; no other key changes |
| FeatureFlags.InitializeIdempotent | src/services/featureFlagService.js:15-20 | initialising twice equals initialising once |
| FeatureFlags.InitializeKeepsReading | src/services/featureFlagService.js:15-25 | seeding never changes what getAllFlags reports, including its failure on an unreadable entry |
| FeatureFlags.Toggled | src/services/featureFlagService.js:47 | toggling negates the flag's truthiness (an absent flag becomes true) and leaves every other flag as it was |
| FeatureFlags.ToggleTwice | src/services/featureFlagService.js:45-55 | toggling a flag that holds a boolean twice gives the map back |
| FeatureFlags.ToggleTwiceAbsent | src/services/featureFlagService.js:45-55 | toggling an absent flag twice leaves it present and false, not absent |
| FeatureFlags.FeatureFlagService.constructor | src/services/featureFlagService.js:11-13 | constructing the service runs initializeFlags on the store, with no event |
| FeatureFlags.FeatureFlagService.InitializeFlags | src/services/featureFlagService.js:15-20 | the store becomes `Initialized` of the old store |
| FeatureFlags.FeatureFlagService.IsEnabled | src/services/featureFlagService.js:27-30 | isEnabled fails exactly when getAllFlags does; otherwise a flag is enabled exactly when it is in the map and true |
| FeatureFlags.FeatureFlagService.SetFlag | src/services/featureFlagService.js:32-43 | an unreadable entry makes it throw before writing or dispatching; otherwise the flag reads `enabled`, every other flag is unchanged, the map is written back, and exactly one event carrying the new map fires |
| FeatureFlags.FeatureFlagService.ToggleFlag | src/services/featureFlagService.js:45-55 | an unreadable entry makes it throw before writing or dispatching; otherwise the map becomes the toggled map, the flag's value flips, and exactly one event fires |
| FeatureFlags.FeatureFlagService.ResetToDefaults | src/services/featureFlagService.js:57-64 | the stored map is the defaults whatever was stored before, so getAllFlags reads the defaults, and one event carrying the defaults fires |
| OfficerDashboard.NormalizedHasNoSpace | src/pages/OfficerDashboard-simplified.jsx:39-42 | a normalised status contains no whitespace |
| OfficerDashboard.NormalizeEmpty | src/pages/OfficerDashboard-simplified.jsx:39-42 | the normalised status is "" exactly for a missing status or an all-whitespace one |
| OfficerDashboard.NormalizeWord | src/pages/OfficerDashboard-simplified.jsx:41 | a status without whitespace is only upper-cased |
| OfficerDashboard.NormalizeIdempotent | src/pages/OfficerGrievanceView.jsx:407-410 | normalising twice equals normalising once |
| OfficerDashboard.WithStatus | src/pages/OfficerDashboard-simplified.jsx:78-80 | the bucket's rows are exactly the rows whose normalised status is the bucket |
| OfficerDashboard.WithStatusAppend | src/pages/OfficerDashboard-simplified.jsx:90-92 | filtering a concatenation is the concatenation of the filtered parts, so list order is kept |
| OfficerDashboard.BucketsFit | src/pages/OfficerDashboard-simplified.jsx:75-82 | the three bucket counts add up to at most the row count |
| OfficerDashboard.GetCounts | src/pages/OfficerDashboard-simplified.jsx:75-82 | ALL is the row count and PENDING + IN_PROCESS + RESOLVED never exceeds it |
| OfficerDashboard.Filtered | src/pages/OfficerDashboard-simplified.jsx:87-92 | "ALL" returns the list unchanged; any other filter keeps exactly the rows of that status; its length is the count shown for the filter |
| OfficerDashboard.AssignButtonFor | src/pages/OfficerDashboard-simplified.jsx:233-240 | the button is disabled exactly when cached or not PENDING; it reads "Assigned" exactly when cached, "Locked" exactly when uncached and not pending, "Assign" exactly when enabled |
| OfficerDashboard.AssignedRowLocked | src/pages/OfficerDashboard-simplified.jsx:115-121 | once a grievance is recorded in a readable cache its button is disabled and reads "Assigned" |
| OfficerDashboard.ViewRoute | src/pages/OfficerDashboard-simplified.jsx:94-97 | handleView navigates exactly when `officer_table_view` is on, to that grievance's page |
| OfficerDashboard.AssignPayload | src/pages/OfficerDashboard-simplified.jsx:109-113 | the assignment body carries the stored officer number, or "OFF001" when none is stored |
| OfficerDashboard.OfficerDashboardPage.constructor | src/pages/OfficerDashboard-simplified.jsx:7-21 | the page starts loading, with an empty list, filter ALL, its own default flags and the cached ids read from storage (empty for an unreadable entry, see Left out) |
| OfficerDashboard.OfficerDashboardPage.Mount | src/pages/OfficerDashboard-simplified.jsx:45-59 | the mount effect adopts a stored flag map and requests the list |
| OfficerDashboard.OfficerDashboardPage.ReceiveGrievances | src/pages/OfficerDashboard-simplified.jsx:61-72 | the list becomes the rows, or empty on failure or a non-array body; loading ends |
| OfficerDashboard.OfficerDashboardPage.SetStatusFilter | src/pages/OfficerDashboard-simplified.jsx:155 | a filter button sets the filter and nothing else |
| OfficerDashboard.OfficerDashboardPage.HandleAssign | src/pages/OfficerDashboard-simplified.jsx:99-129 | a non-PENDING grievance gets the alert, no request and no cache change; otherwise the assignment is posted; on 200/201 with a readable cache the id is recorded once, the page's copy follows, and the list is requested again with a success alert; on 200/201 with an unreadable cache the catch alerts the fallback and nothing is written; another 2xx status does nothing more; a refusal alerts `details` or the fallback |
| OfficerGrievanceView.FindGrievance | src/pages/OfficerGrievanceView.jsx:77 | `find` returns the first row with the grievance number, and nothing exactly when no row has it |
| OfficerGrievanceView.AddInvestigationError | src/pages/OfficerGrievanceView.jsx:181-195 | the modal may open exactly when assigned and the normalised status is IN_PROCESS; the assignment is checked first |
| OfficerGrievanceView.UpdateErrorMessage | src/pages/OfficerGrievanceView.jsx:337-361 | a refused update names the investigation on 404, denies permission on 403, prefers the body's `message` then `error` otherwise, and falls back to the 400 text or the status-coded server text; no response and a request error get their own texts |
| OfficerGrievanceView.AddOpensIffNoNote | src/pages/OfficerGrievanceView.jsx:1077 | for an assigned officer the add button opens the modal exactly when the in-process note is hidden |
| OfficerGrievanceView.DisabledSubmitRefused | src/pages/OfficerGrievanceView.jsx:1413 | the update submit button is disabled (when idle) exactly when the findings are all whitespace, the case the handler refuses |
| OfficerGrievanceView.OfficerGrievancePage.constructor | src/pages/OfficerGrievanceView.jsx:10-42 | the page starts loading, unassigned, with all three flags on and empty, closed modals |
| OfficerGrievanceView.OfficerGrievancePage.Mount | src/pages/OfficerGrievanceView.jsx:44-70 | without a stored user number and the role "OFFICER" nothing is fetched and the login error and redirect follow; otherwise the list and timeline are requested; a plain-text flags entry throws before the flags and the cache are read; otherwise stored flags are adopted, and `isAssigned` is cache membership unless the cache is unreadable, which throws |
| OfficerGrievanceView.OfficerGrievancePage.LoadGrievanceDetails | src/pages/OfficerGrievanceView.jsx:72-93 | a failed load sets the load error, a missing grievance the not-found error, a found one becomes the grievance; loading ends |
| OfficerGrievanceView.OfficerGrievancePage.ReceiveTimeline | src/pages/OfficerGrievanceView.jsx:95-114 | a timeline that arrives is stored, a failure is silent; timeline loading ends |
| OfficerGrievanceView.OfficerGrievancePage.HandleSelect | src/pages/OfficerGrievanceView.jsx:116-179 | no request while self-assignment is off or no user number is stored (each with its message); otherwise the error is cleared and the assignment put under the stored number; whenever the Select button is shown and a number is stored, pressing it sends the request |
| OfficerGrievanceView.OfficerGrievancePage.SendSelfAssignment | src/pages/OfficerGrievanceView.jsx:145-175 | on 200 with a readable cache the grievance is recorded at most once, `isAssigned` is set so the Select button disappears, the success banner shows and list and timeline are refetched; on 200 with an unreadable cache the catch shows the fallback and nothing is written; another 2xx status changes nothing; a failure shows `details`, `message`, `error` or the fallback |
| OfficerGrievanceView.SelectExcludesActions | src/pages/OfficerGrievanceView.jsx:539-967 | the Select button and an investigation's Update/End buttons never show together, and where those buttons show the add handler does not refuse for lack of assignment |
| OfficerGrievanceView.OfficerGrievancePage.HandleAddInvestigation | src/pages/OfficerGrievanceView.jsx:181-195 | the modal opens exactly when no refusal applies; otherwise the refusal is the error |
| OfficerGrievanceView.OfficerGrievancePage.EditInvestigation | src/pages/OfficerGrievanceView.jsx:197-203 | typing replaces the add form and nothing else |
| OfficerGrievanceView.OfficerGrievancePage.CloseInvestigationModal | src/pages/OfficerGrievanceView.jsx:1254 | Cancel closes the add modal and keeps the form |
| OfficerGrievanceView.OfficerGrievancePage.HandleSubmitInvestigation | src/pages/OfficerGrievanceView.jsx:205-215 | findings that trim to nothing are refused before any request; otherwise the error is cleared and the form posted |
| OfficerGrievanceView.OfficerGrievancePage.PostInvestigation | src/pages/OfficerGrievanceView.jsx:217-257 | the form goes out untrimmed; success closes and clears the modal and refetches; failure keeps the modal and shows `message`, `error` or the fallback |
| OfficerGrievanceView.OfficerGrievancePage.HandleUpdateInvestigation | src/pages/OfficerGrievanceView.jsx:260-268 | the update modal opens on the investigation with its findings copied as they are, and its remarks and outcome (a missing remark or outcome as "") |
| OfficerGrievanceView.OfficerGrievancePage.EditUpdate | src/pages/OfficerGrievanceView.jsx:270-276 | typing replaces the update form and nothing else |
| OfficerGrievanceView.OfficerGrievancePage.CloseUpdateModal | src/pages/OfficerGrievanceView.jsx:1400-1405 | Cancel closes the update modal, drops the selection and clears the error |
| OfficerGrievanceView.OfficerGrievancePage.HandleSubmitUpdate | src/pages/OfficerGrievanceView.jsx:278-287 | the error is cleared first; blank findings are refused with no request; otherwise the update is sent |
| OfficerGrievanceView.OfficerGrievancePage.PutInvestigationUpdate | src/pages/OfficerGrievanceView.jsx:289-368 | the three fields go out trimmed; success closes the modal and refetches timeline and list; failure keeps the modal open with the chosen message |
| OfficerGrievanceView.OfficerGrievancePage.HandleEndInvestigation | src/pages/OfficerGrievanceView.jsx:371-400 | declining sends nothing; success clears the error, shows the notice and refetches the timeline; failure shows `message`, `error` or the fallback |
| AdminDashboard.AdminStatus | src/pages/AdminDashboard.jsx:6-13 | the classifier yields one of "", pending, in_progress, resolved, and "" for a missing or empty status |
| AdminDashboard.AdminStatusByWords | src/pages/AdminDashboard.jsx:8-11 | each bucket holds exactly when its word is in the lower-cased status and no earlier word is, so "pending" wins over "resolve" |
| AdminDashboard.IntendedResolveCountsResolved | src/pages/AdminDashboard.jsx:8-11 | INTENDED_RESOLVE is counted as resolved on this page (the employee page counts it as in progress) |
| AdminDashboard.UnresolvedCountsResolved | src/pages/AdminDashboard.jsx:11 | a status "UNRESOLVED" is counted as resolved, since it contains "resolve" |
| AdminDashboard.BucketCount | src/pages/AdminDashboard.jsx:84-86 | a bucket never counts more rows than there are |
| AdminDashboard.BucketsWithinTotal | src/pages/AdminDashboard.jsx:80-87 | each row adds to at most one bucket, so the buckets add up to at most the row count |
| AdminDashboard.BucketCountAppend | src/pages/AdminDashboard.jsx:81-87 | counting over two lists adds up |
| AdminDashboard.ComputeStats | src/pages/AdminDashboard.jsx:80-87 | the loop's total is the row count, each counter is its bucket's count, and pending + inProgress + resolved ≤ total |
| AdminDashboard.StatusCell | src/pages/AdminDashboard.jsx:353 | the status column shows "in progress" for the in-progress bucket and every other bucket as it is |
| AdminDashboard.CountCell | src/pages/AdminDashboard.jsx:298 | a `??` chain never shows null, and shows 0 when every field is missing or null |
| AdminDashboard.CountCellKeepsZero | src/pages/AdminDashboard.jsx:298 | a first field holding 0 is shown as 0 (falsy, yet kept) |
| AdminDashboard.CountCellFirstPresent | src/pages/AdminDashboard.jsx:322 | the first field that is present and not null is shown |
| AdminDashboard.TabRequests | src/pages/AdminDashboard.jsx:64-101 | the analytics tab issues three GETs, the other tabs one each |
| AdminDashboard.AdminPage.constructor | src/pages/AdminDashboard.jsx:19-51 | the page starts on analytics, loading, with empty tables, zero stats and closed delete flows |
| AdminDashboard.AdminPage.FetchData | src/pages/AdminDashboard.jsx:59-101 | loading starts and the active tab's requests go out |
| AdminDashboard.AdminPage.SelectTab | src/pages/AdminDashboard.jsx:250-252 | a tab button refetches only when the tab changes |
| AdminDashboard.AdminPage.ReceiveAnalytics | src/pages/AdminDashboard.jsx:71-107 | with all three answers the tables are set, a missing grievance list reads as empty, and the stats are that list's bucket counts; otherwise only loading ends |
| AdminDashboard.AdminPage.ReceiveList | src/pages/AdminDashboard.jsx:92-107 | the employees or officers list is replaced by the answer, kept on failure; loading ends |
| AdminDashboard.AdminPage.HandleDelete | src/pages/AdminDashboard.jsx:113-116 | staging a row makes it the target and clears that flow's error; the other flow is untouched |
| AdminDashboard.AdminPage.CancelDelete | src/pages/AdminDashboard.jsx:461-476 | Cancel or the overlay clears the target only |
| AdminDashboard.AdminPage.ConfirmDelete | src/pages/AdminDashboard.jsx:118-140 | with no target nothing happens; success deletes by `empnum`/`officernum`, clears target and error, sets success and refetches; failure keeps the target and sets `message`, `error` or the fallback |
| AdminDashboard.AdminPage.DismissSuccess | src/pages/AdminDashboard.jsx:501-507 | OK hides the success notice only |
| EmployeeDashboard.FetchUrl | src/pages/EmployeeDashboard.jsx:55-56 | "all" requests `/employee/grievances`; any other filter requests `/employee/grievances?status=` followed by the filter |
| EmployeeDashboard.FetchUrlInjective | src/pages/EmployeeDashboard.jsx:55-56 | different filters request different URLs |
| EmployeeDashboard.CountExact | src/pages/EmployeeDashboard.jsx:64-66 | an exact-status count never exceeds the row count |
| EmployeeDashboard.CountExactDisjoint | src/pages/EmployeeDashboard.jsx:64-66 | counts for disjoint status sets add up |
| EmployeeDashboard.EmployeeStats | src/pages/EmployeeDashboard.jsx:62-67 | total is the row count |
| EmployeeDashboard.EmployeeStatsWithinTotal | src/pages/EmployeeDashboard.jsx:62-67 | the three buckets are disjoint, so their sum is at most the total |
| EmployeeDashboard.StatusLabel | src/pages/EmployeeDashboard.jsx:19-46 | a missing status gets no label |
| EmployeeDashboard.CountedRowsLabelled | src/pages/EmployeeDashboard.jsx:19-46 | a row a card counts carries that card's label |
| EmployeeDashboard.LowercasePendingLabelledNotCounted | src/pages/EmployeeDashboard.jsx:62-67 | a lower-case "pending" row is labelled Pending but not counted as pending |
| EmployeeDashboard.CategoryCell | src/pages/EmployeeDashboard.jsx:179 | the cell shows `categoryName`, else `category`, else "—", never nothing |
| EmployeeDashboard.SelectFilter | src/pages/EmployeeDashboard.jsx:48-50 | choosing a filter refetches its URL only when the filter changes |
| EmployeeDashboard.Receive | src/pages/EmployeeDashboard.jsx:58-72 | a load replaces rows and cards together, a failure keeps both; loading ends |
| EmployeeDashboard.ReceiveConsistent | src/pages/EmployeeDashboard.jsx:61-67 | after a load the cards are the counts of the rows shown and fit within their number |
| Register.CharIndex | src/pages/Register.jsx:44 | the index found is the first occurrence of the character, or the length when absent |
| Register.EmailValidIffPattern | src/pages/Register.jsx:44 | the e-mail check accepts exactly the strings that `^[^\s@]+@[^\s@]+\.[^\s@]+$` matches |
| Register.EmailValidMatches | src/pages/Register.jsx:44 | an accepted address splits into the pattern's three runs |
| Register.MatchIsEmailValid | src/pages/Register.jsx:44 | any split the pattern allows is accepted |
| Register.ValidateField | src/pages/Register.jsx:37-55 | userNum is valid iff of length 4, email iff it matches the pattern, password iff at least 8 long, categoryNum iff not an officer or non-empty; every other field is valid |
| Register.RegisterErrorsEmpty | src/pages/Register.jsx:67-81 | submit is blocked exactly when the number, e-mail or password is invalid or an officer has no category |
| Register.CollectErrors | src/pages/Register.jsx:72-75 | the validation loop collects exactly the checked keys' errors |
| Register.RegisterFailure | src/pages/Register.jsx:89 | a refused registration shows the body's `message`, else the fixed fallback |
| Register.EmptyForm | src/pages/Register.jsx:24-35 | the form starts with every field present and empty |
| Register.RegisterPage.constructor | src/pages/Register.jsx:19-35 | the page starts as employee, idle, with no errors and the empty form |
| Register.RegisterPage.HandleChange | src/pages/Register.jsx:57-61 | typing stores the value and records that field's error at once |
| Register.RegisterPage.ChangeRole | src/pages/Register.jsx:113 | changing the role clears every field error |
| Register.RegisterPage.HandleSubmit | src/pages/Register.jsx:63-95 | with errors they are shown with the banner and nothing is sent; otherwise the form is posted to the role's endpoint; success alerts and routes to login, failure shows and alerts the message |
| Login.WithField | src/pages/Login.jsx:44-47 | a change sets that credential and leaves the others |
| Login.ValidateField | src/pages/Login.jsx:26-40 | userNum is valid iff of length 4, password iff at least 8 long, authKey iff not an officer or non-empty; empty fields get the "required" text |
| Login.LoginErrorsEmpty | src/pages/Login.jsx:61-72 | login is blocked exactly when the number or password is invalid or an officer has no auth key |
| Login.CollectLoginErrors | src/pages/Login.jsx:62-66 | the validation loop collects exactly the checked keys' errors, skipping an employee's auth key |
| Login.LoginPayload | src/pages/Login.jsx:76-86 | an employee sends only number and password; anyone else adds the auth key |
| Login.LoginPage.constructor | src/pages/Login.jsx:6-15 | the page starts as employee login with empty credentials and no errors |
| Login.LoginPage.HandleChange | src/pages/Login.jsx:42-54 | typing stores the value and records that field's error at once |
| Login.LoginPage.ChangeType | src/pages/Login.jsx:112-115 | changing the login type clears field errors |
| Login.LoginPage.HandleSubmit | src/pages/Login.jsx:56-96 | with errors they are shown and alerted and the provider is not called; otherwise the payload goes to the provider, and a failure becomes the error and its alert |
| Login.LoginPage.SendCredentials | src/pages/Login.jsx:74-95 | the provider's login runs with this type's payload; the store, user and route follow its outcome |
| ApplyGrievance.AvailableTopics | src/pages/ApplyGrievance.jsx:6-14 | a mapped category gives its non-empty topic list, an unmapped one none |
| ApplyGrievance.ResetTopic | src/pages/ApplyGrievance.jsx:30-34 | the subject becomes "" exactly when the category has no topics, and otherwise one of its own topics |
| ApplyGrievance.ResetTopicBelongs | src/pages/ApplyGrievance.jsx:30-34 | the reset subject is the category's first topic (or ""), and resetting twice changes nothing |
| ApplyGrievance.InitialSubject | src/pages/ApplyGrievance.jsx:18-23 | the form opens on SAL, LOW, with subject "Non-payment / Delay / Deduction" |
| ApplyGrievance.CreatePayload | src/pages/ApplyGrievance.jsx:50-55 | the create body sends the category as `categoryNum` and the other three fields unchanged |
| ApplyGrievance.NewGrievanceId | src/pages/ApplyGrievance.jsx:64 | the id is a truthy `grvnNum`, else the whole body; none only for a null body |
| ApplyGrievance.BuildUploadForm | src/pages/ApplyGrievance.jsx:68-77 | one `files` entry per staged file in order, then `parentTable=grievances` and `parentId=id` |
| ApplyGrievance.SubmitError | src/pages/ApplyGrievance.jsx:89 | a failure shows the body's `message`, else the fixed fallback |
| ApplyGrievance.ApplyGrievancePage.constructor | src/pages/ApplyGrievance.jsx:18-28 | the page starts with the initial form and nothing staged |
| ApplyGrievance.ApplyGrievancePage.CategoryEffect | src/pages/ApplyGrievance.jsx:30-34 | topics become the category's list and the subject is reset |
| ApplyGrievance.ApplyGrievancePage.HandleChange | src/pages/ApplyGrievance.jsx:36-38 | a field change sets that field; a new category also re-runs the topic reset |
| ApplyGrievance.ApplyGrievancePage.HandleFileChange | src/pages/ApplyGrievance.jsx:40-42 | the staged files become the chosen ones |
| ApplyGrievance.ApplyGrievancePage.HandleSubmit | src/pages/ApplyGrievance.jsx:44-93 | the create request always goes first; the upload follows exactly when files are staged and the id is truthy, carrying one `files` entry per staged file in order, `parentTable=grievances` and `parentId=id`; success alerts and routes to the dashboard exactly when every request made succeeded; any failure shows a message and nothing is undone |
| ApplyGrievance.ApplyGrievancePage.UploadAttachments | src/pages/ApplyGrievance.jsx:67-86 | the upload is sent only when needed, with every staged file in order, the parent table and the id; its failure shows the message |
| AuthContext.HydrationOf | src/contexts/AuthContext.jsx:13-16 | no user exactly when nothing (or "") is stored; a restored user is what the entry parses to |
| AuthContext.HydratedStore | src/contexts/AuthContext.jsx:19-22 | an unreadable user entry wipes every entry, otherwise storage is kept |
| AuthContext.CorruptUserDropsFlags | src/contexts/AuthContext.jsx:21 | wiping on a corrupt user also drops stored feature flags, which then read as the defaults |
| AuthContext.LoginOutcome | src/contexts/AuthContext.jsx:30-70 | login succeeds exactly on a truthy body with a truthy role; failure gives "Login failed" for an accepted request without a role, else `message`, `error` or "Login failed" |
| AuthContext.LoginStore | src/contexts/AuthContext.jsx:38-40 | login stores exactly `userNum` and `role` as text and the whole user, keeping every other entry |
| AuthContext.HomeRoute | src/contexts/AuthContext.jsx:50-56 | a route follows exactly for EMPLOYEE, OFFICER and ADMIN |
| AuthContext.LogoutStore | src/contexts/AuthContext.jsx:82-85 | logout removes exactly `userNum`, `role`, `user` and `assignedGrievances` |
| AuthContext.LoginThenHydrate | src/contexts/AuthContext.jsx:12-40 | a stored login is restored by the next start-up and not wiped |
| AuthContext.LogoutForgetsSession | src/contexts/AuthContext.jsx:76-92 | after logout nothing is restored, the assignment cache is empty and the flags are kept |
| AuthContext.LoginThenLogout | src/contexts/AuthContext.jsx:38-85 | logging in then out leaves storage as logging out alone |
| AuthContext.RegisterRequest | src/contexts/AuthContext.jsx:96 | registration posts the user data to `/auth/register/` plus the lower-cased role |
| AuthContext.RegisterIgnoresCase | src/contexts/AuthContext.jsx:96 | an upper-cased role posts to the same endpoint with the same body |
| AuthContext.RegisterError | src/contexts/AuthContext.jsx:94-106 | registration fails exactly when the request is refused, with `message`, `error` or "Registration failed" |
| AuthContext.AuthProvider.constructor | src/contexts/AuthContext.jsx:8-9 | the provider starts with no user, loading |
| AuthContext.AuthProvider.Hydrate | src/contexts/AuthContext.jsx:12-25 | a readable stored user becomes the session, an unreadable one clears storage; loading ends, so the pages render |
| AuthContext.AuthProvider.Login | src/contexts/AuthContext.jsx:27-74 | the credentials are posted; an accepted answer is stored, becomes the user and picks the route; a failure changes nothing; loading ends |
| AuthContext.AuthProvider.Logout | src/contexts/AuthContext.jsx:76-92 | the session entries go and the user is cleared whatever the server says; the route is the login page |
| GrievanceDetails.DescriptionText | src/pages/GrievanceDetails.jsx:85 | the description shown is the grievance's own when that is truthy, and "No description provided." otherwise |
| GrievanceDetails.LoadRequests | src/pages/GrievanceDetails.jsx:26-38 | details always; the timeline exactly when details arrived; the resolution exactly when both arrived and the status is exactly RESOLVED |
| GrievanceDetails.ResolutionHidesAppeals | src/pages/GrievanceDetails.jsx:34-103 | a grievance whose resolution is requested never shows File Appeal |
| GrievanceDetails.GrievanceDetailsPage.constructor | src/pages/GrievanceDetails.jsx:10-20 | the page starts loading with nothing fetched and the appeal dialog closed |
| GrievanceDetails.GrievanceDetailsPage.FetchGrievanceData | src/pages/GrievanceDetails.jsx:26-44 | the requests are the load chain; what arrived before a failure stays; any failure sets the single error; loading ends |
| GrievanceDetails.GrievanceDetailsPage.HandleIntendedResolve | src/pages/GrievanceDetails.jsx:46-56 | declining sends nothing; success marks the click, alerts and reloads; failure only alerts |
| GrievanceDetails.GrievanceDetailsPage.OpenAppeal | src/pages/GrievanceDetails.jsx:105 | File Appeal opens the dialog on that investigation |
| GrievanceDetails.GrievanceDetailsPage.EditAppeal | src/pages/GrievanceDetails.jsx:139 | typing sets the appeal text |
| GrievanceDetails.GrievanceDetailsPage.CancelAppeal | src/pages/GrievanceDetails.jsx:142 | Cancel hides the dialog, keeping the investigation and text |
| GrievanceDetails.GrievanceDetailsPage.SubmitAppeal | src/pages/GrievanceDetails.jsx:143 | submitting an appeal sends nothing and only alerts the placeholder |
| OfficerProfile.FirstUsable | src/pages/OfficerProfilePage.jsx:33-38 | the lookup never returns null or "" |
| OfficerProfile.FirstUsableSpec | src/pages/OfficerProfilePage.jsx:33-38 | the first key in list order whose value is not undefined, null or "" wins, and "N/A" comes back when none qualifies |
| OfficerProfile.GetValue | src/pages/OfficerProfilePage.jsx:31-39 | a falsy object gives "N/A"; the result is never null or "" |
| OfficerProfile.GetValueKeepsFalsy | src/pages/OfficerProfilePage.jsx:34 | a 0 or false under the first usable key is returned, not skipped |
| OfficerProfile.ProfileRole | src/pages/OfficerProfilePage.jsx:67 | a missing or null role shows "OFFICER"; the expression fails exactly for a present role that is not a string; a shown role is never empty |
| OfficerProfile.ProfileRoleStripsPrefix | src/pages/OfficerProfilePage.jsx:67 | a role starting "ROLE_" loses that prefix, and a bare "ROLE_" falls back to "OFFICER" |
| OfficerProfile.ProfileRoleWithoutPrefix | src/pages/OfficerProfilePage.jsx:67 | a non-empty role without "ROLE_" is shown as it is |
| OfficerProfile.ProfileLoaded | src/pages/OfficerProfilePage.jsx:12-28 | success shows the body with no error, failure the fixed error; loading ends |

## Left out

- HTTP itself: each request is an output `Call` and each answer an input `Reply`. This covers the axios instance, its headers and the 401 interceptor of `src/services/api.js`. A 2xx status counts as success.
- Rendering, inline styles, the loading and error screens, and date display (`toLocaleDateString` depends on the locale).
- Timers. Banners that clear after 3 s, redirects after 2 s and the 500 ms delay before the admin refetch are modelled as happening at once: the redirect is recorded and the refetch's requests are returned directly.
- Concurrency. Overlapping requests and stale answers are not modelled, and each handler sees its answers in program order. The `assigning`, `submittingInvestigation` and `updatingInvestigation` flags, which only disable buttons while a request is in flight, are not modelled.
- Loading flags during a reload. The loading flags set by the reloads after a successful action are represented by the reload's requests, not by separate state.
- JSON parsing. A plain string entry in storage is text on which `JSON.parse` throws. Entries the client itself wrote are kept as the values they encode.
- FeatureFlags.AllFlags: a stored `featureFlags` entry holding JSON other than a flag map is read as a failure. The page would go on with whatever that JSON parses to. `OfficerDashboard.LoadedFlags` keeps the current flags for such an entry.
- Storage.ReadAssigned: an `assignedGrievances` entry holding truthy JSON other than an id list is read as a failure. On a JSON string the page's `includes` would still answer.
- OfficerDashboard.OfficerDashboardPage.constructor: an unreadable assignment cache makes the page's initial state throw during render (src/pages/OfficerDashboard-simplified.jsx:20), so the page never shows. The model starts with an empty cached list instead.
- Base.Message: a `message`, `error` or `details` field that is truthy but not a string is skipped, so the chain moves on to the next key or the fallback. The page would show that value (a number as its digits; an object cannot render). Every message chain built on `Base.FirstMessage` inherits this.
- Statuses of other types. A grievance status is a string or missing; a status of another JSON type is not modelled.
- JSON numbers are integers.
- Case mapping covers the Latin letters A–Z only. Unicode case mapping and UTF-16 string lengths are not modelled.
- Console logging and the custom-event dispatch mechanism. Each dispatched `featureFlagsChanged` event is recorded as its detail.
- `getAllFlags` aliasing. When nothing is stored, `getAllFlags` returns the `DEFAULT_FLAGS` object itself, which a later `setFlag` would mutate. The model reads the defaults as a value and so does not capture that sharing.
- ApplyGrievance.ApplyGrievancePage.HandleChange: a field name outside the form leaves the form unchanged. The page would add that key to its form object, but the key is never sent.
- Login.WithField: an unknown credential name is ignored. The page would add the key, but an unknown key never produces an error, so the final check is unaffected.
- AuthContext.AuthProvider.Logout: the logout request is modelled with a null body, since the page posts none.
- GrievanceDetails.GrievanceDetailsPage: `intendedResolveClicked` is set as in the page, but nothing in the page reads it.
- Login.LoginPage.HandleSubmit: the provider is treated as a plain call, so a failed login shows its error banner and the "Login Failed" alert. In the source this does not happen. The provider renders its children only while it is not loading (src/contexts/AuthContext.jsx:119), and the routes sit inside it (src/App.jsx:35-36). Its `login` sets loading (src/contexts/AuthContext.jsx:27), which unmounts the login page. When loading ends a fresh login page mounts with an empty `error`. So after a failed login no banner and no alert appear (src/pages/Login.jsx:19-23 and 90-92), and the typed credentials are lost. The model does not follow this unmounting.
- OfficerGrievanceView.OfficerGrievancePage.HandleUpdateInvestigation: an investigation always has findings text (`Investigation.findings` is a string). The page copies `findings` with no default (src/pages/OfficerGrievanceView.jsx:263), unlike remarks and outcome. For an investigation whose findings are missing or null, the update modal's render throws on `findings.trim()` (line 1413), and a submit would throw at line 284 after clearing the error and before any request. The employee page's "In progress..." fallback (src/pages/GrievanceDetails.jsx:99) shows such investigations occur. The model does not capture these throws.
- OfficerGrievanceView.OfficerGrievancePage.HandleSubmitUpdate: requires an open update modal with a selected investigation, because the form is rendered only then.
- GrievanceDetails.HasInvestigations counts only a JSON array. A string `investigations` value, whose `length` the page would also read, is not modelled.
- EmployeeDashboard.StatusLabel: the contract states only the missing-status case. The labels of counted statuses are stated by `CountedRowsLabelled`, and the raw-status default is in the function itself.
- The Navbar, App routing table, OfficerAnalytics, EmployeeProfile, EmployeeHelp, OfficerLegalReferences and LegalReferenceList pages, and the build configuration, are not part of this model. Each only renders, routes or fetches for display.
- Reading the sources also shows some behaviours that the model reproduces as written:
  - a failed create request in ApplyGrievance shows the fallback "Grievance saved, but failed to upload files." although nothing was saved;
  - the officer dashboard posts "OFF001" when no officer number is stored;
  - hydrating a corrupt user entry also wipes the stored feature flags;
  - added investigation findings are sent untrimmed, while updates are trimmed.
