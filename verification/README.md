# Job application tracker — a Dafny model

This project models the core of a job-application tracker: an Express/Mongoose REST
server with a React client. Applicants browse job postings, apply, and follow their
application through a seven-stage pipeline. Admins manage postings and move
applications between stages.

The model covers:

- **Server.** The bearer-token middleware; the CV upload filter and file naming; the
  `Job` and `Application` schemas (required paths, enums, defaults, timestamps, the
  note sub-record); the job routes (create, list newest first, update, delete); the
  application routes (apply, my list, admin list, status update).
- **Client.** The saved-session context (restore, login, logout); the route table with
  its `ProtectedRoute`/`RoleRoute` guards; the status progress bar; the application
  table; the admin job page (salary text, list updates, metrics); the job details page
  (salary, fallbacks, requirements list); the two application detail pages (date-input
  text, LinkedIn link, note guard, cancel-edit reset, reminder and interview payloads,
  status options, interview-stage test).

Handlers are pure functions over maps from document id to record. They return the
HTTP reply together with the new collection. Newest-first listing is a method whose
loop inserts each document in `createdAt` order.

The model takes these as parameters instead of computing them:

- `now`, for `Date.now`;
- `verify`, the JWT check, as a function from token to claims;
- `parse` and `stringify`, for JSON of the saved user;
- `toIso`, for `new Date(local).toISOString()`;
- the local-time components of a stored date.

Modules: `Wrappers`, `Text` (JavaScript string built-ins), `Store` (collections and
ordering), `Http`, `AuthMiddleware`, `Upload`, `JobModel`, `JobsRoutes`,
`ApplicationModel`, `ApplicationsRoutes`, `AuthSession`, `Routing`, `StatusBar`,
`ApplicationList`, `AdminJobsPage`, `JobDetailsPage`, `PageForms` (helpers both detail
pages define alike), `UserApplicationDetails` and `AdminApplicationDetails`.

Parts of the client reach past the server code. The model follows the server code:

- The pages import `getMyApplicationsAnalytics`, `updateApplicationTracking` and
  `addNoteToApplication` (client/src/pages/UserApplicationsPage.jsx:3-8),
  `getMyApplicationById`, `setReminder` and `updateMyApplicationWithForm`
  (client/src/pages/UserApplicationDetailsPage.jsx:3-8), and `getApplicationByIdAdmin`,
  `addAdminNoteToApplication` and `updateInterviewAdmin`
  (client/src/pages/AdminApplicationDetailsPage.jsx:3-8). client/src/api/applicationsApi.js
  exports only `applyToJob`, `getMyApplications`, `getAllApplications` and
  `updateApplicationStatus` (lines 9, 23, 35, 47), and the server mounts no route for the
  others. The model covers what those pages compute locally (payloads, form resets,
  link text), with the server's answer as a parameter.
- The job details and apply pages load their job with `getJobById`
  (client/src/pages/JobDetailsPage.jsx:3,22, client/src/pages/ApplyFormPage.jsx:3,29).
  client/src/api/JobsApi.js exports only `getJobs`, `createJob`, `updateJob` and
  `deleteJob` (lines 10, 20, 32, 44), and server/routes/jobs.routes.js mounts no
  `GET /:id` (its routes are at lines 12, 37, 50, 69). As written, neither page can load
  a job. The model of the job details page takes the job as a parameter, so it describes
  what the page would show once a job arrived.
- The route table (client/src/App.jsx:47-118) has no entry for either application detail
  page, so a location never reaches them and `*` sends it to /login. Their models
  describe the pages' own logic only.
- The admin detail page says that leaving "pending" records `respondedAt`
  (client/src/pages/AdminApplicationDetailsPage.jsx:191). The schema has the field
  (server/models/Application.js:39-40, default `null`), but the status handler
  (server/routes/applications.routes.js:84-88) sets only `status`. In the model
  `respondedAt` stays `None`.
- The admin page's `STATUS_OPTIONS` (client/src/pages/AdminApplicationDetailsPage.jsx:10-18)
  are the seven schema stages (server/models/Application.js:28-36). The status route
  allows `pending`, `reviewed`, `accepted` and `rejected`
  (server/routes/applications.routes.js:79-82). The mounted endpoint in the model keeps
  the route's set, and the mismatch is recorded under Findings.

## Model

| member | source | states |
|---|---|---|
| AuthMiddleware.Authenticate | server/middleware/auth.middleware.js:3-26 | A missing, empty or non-"Bearer " header stops with 401 "No token, authorization denied"; otherwise the request goes on exactly when the verifier accepts the second space-separated piece, carrying that token's id and role; a rejected token stops with 401 "Token is invalid" |
| AuthMiddleware.AuthorizationHeader | client/src/api/apiClient.js:12 | The header the client builds always passes the "Bearer " prefix check |
| AuthMiddleware.BearerTokenRoundTrip | server/middleware/auth.middleware.js:11 | A token without spaces that the client sends as "Bearer <token>" is the exact token the middleware verifies |
| AuthMiddleware.BearerTokenTruncates | server/middleware/auth.middleware.js:11 | For any token the middleware verifies only its text up to the first space |
| AuthMiddleware.AdminOnly | server/routes/jobs.routes.js:12 | The admin gate passes the caller through exactly when the role is "admin" and otherwise stops with 403 |
| AuthMiddleware.AuthenticateAdmin | server/routes/jobs.routes.js:12 | `authMiddleware` then `adminOnly`: passes exactly authenticated admins; an authentication failure keeps its 401; an authenticated non-admin gets 403 |
| Upload.FileFilter | server/config/upload.js:24-34 | Accepts exactly the PDF, Word and OOXML Word media types; any other type is rejected with "Only PDF and Word documents are allowed!" |
| Upload.OnlyDocumentsAccepted | server/config/upload.js:24-34 | Every accepted type is one of the three document types; executables and images are rejected |
| Upload.StoredFilename | server/config/upload.js:17-20 | The stored name ends with the original name and is strictly longer |
| Upload.StoredFilenameInjective | server/config/upload.js:17-20 | Different (timestamp, original name) pairs never give the same stored name |
| Upload.LeadingDigitsOfStoredName | server/config/upload.js:17-20 | The timestamp is recoverable as the run of digits before the first "-" |
| Upload.Receive | server/config/upload.js:24-40 | A file is stored exactly when its type passes the filter and it is at most 5 MiB; a bad type is reported before a bad size; a stored file gets the timestamped name |
| Upload.IntakeExamples | server/config/upload.js:36-40 | A 6 MiB PDF is refused as too large, a PDF of exactly 5 MiB is stored, an executable is refused by type |
| JobModel.InvalidPaths | server/models/Job.js:3-54 | A new job validates exactly when title, company, location and description are non-empty and any given locationType/jobType is in its enum |
| JobModel.Create | server/models/Job.js:3-54 | A create succeeds exactly when no path fails; the saved job is schema-valid, keeps the given values and takes defaults ("" strings, onsite, full_time, createdAt = now) for the rest |
| JobModel.Patch | server/routes/jobs.routes.js:53 | An update overwrites exactly the fields present in the body and keeps the id |
| JobModel.PatchIdentityAndIdempotent | server/routes/jobs.routes.js:53 | An empty body changes nothing, and applying the same body twice equals applying it once |
| JobModel.PatchCanLeaveSchema | server/routes/jobs.routes.js:53 | Because updates run without validators, an update can store a locationType outside the enum |
| JobsRoutes.CreateFields | server/routes/jobs.routes.js:20-25 | The create handler passes on title, company, location and description as given and none of the other job fields, so the required-field test gives the same answer on the body and on what is passed |
| JobsRoutes.CreateJob | server/routes/jobs.routes.js:12-31 | 400 "All fields are required" unless the four required fields are truthy; otherwise 201 with a schema-valid job holding those four values and every other field at its default; only on 201 does the collection change, by exactly the new job |
| JobsRoutes.ListJobs | server/routes/jobs.routes.js:37-44 | The list holds every job exactly once, in non-increasing createdAt order |
| JobsRoutes.UpdateJob | server/routes/jobs.routes.js:50-63 | 404 "Job not found" for an unknown id; otherwise 200 with the patched job, and every other job is untouched |
| JobsRoutes.DeleteJob | server/routes/jobs.routes.js:69-82 | 404 for an unknown id; otherwise 200 "Job deleted successfully" with the job removed and all others kept |
| JobsRoutes.DeleteTwice | server/routes/jobs.routes.js:69-82 | Deleting the same job a second time answers 404 |
| JobsRoutes.CreateJobEndpoint | server/routes/jobs.routes.js:12 | A request the admin gate stops gets the gate's code and message and changes nothing; an admin's request is the create handler |
| JobsRoutes.UpdateJobEndpoint | server/routes/jobs.routes.js:50 | The same gating for update |
| JobsRoutes.DeleteJobEndpoint | server/routes/jobs.routes.js:69 | The same gating for delete |
| JobsRoutes.OnlyAdminsMutateJobs | server/routes/jobs.routes.js:12-82 | A caller who is not an authenticated admin leaves the job collection unchanged through create, update and delete, and each of the three answers 401 or 403 |
| JobsRoutes.RoutesPreserveWellFormed | server/routes/jobs.routes.js:12-82 | Create, update and delete keep every job stored under its own id |
| JobsRoutes.EnumerationSize | server/routes/jobs.routes.js:40 | An id list that names every document once has as many entries as the collection |
| Store.InsertNewest | server/routes/jobs.routes.js:40 | Inserting a document into a newest-first list keeps it newest-first, adds exactly that id and keeps the ids distinct |
| Store.ListNewestFirst | server/routes/applications.routes.js:45 | `sort({ createdAt: -1 })`: yields every id of the collection once, in non-increasing createdAt order |
| ApplicationModel.MakeNote | server/models/Application.js:3-11 | A note validates exactly when its text is not blank and its role is user or admin; the stored text is trimmed, authorName defaults to "" and createdAt to now |
| ApplicationModel.MakeNoteTrimmed | server/models/Application.js:5 | A stored note text is non-empty and already trimmed |
| ApplicationModel.InvalidPaths | server/models/Application.js:13-55 | Each of job, user, fullName, phone, cvUrl fails exactly when missing or empty; status fails exactly when outside the seven stages; notes fails exactly when it does not cast to a valid note list |
| ApplicationModel.Create | server/models/Application.js:13-55 | A create succeeds exactly when no path fails; the saved application is schema-valid, keeps given values, stores a given note list as its cast notes (each stamped `now`), and gets status "pending", null dates, "" strings, no notes and createdAt = updatedAt = now by default |
| ApplicationModel.RequiredPaths | server/models/Application.js:15-22 | Without job, user, fullName, phone or cvUrl the create is rejected |
| ApplicationModel.BuildNotes | server/models/Application.js:52 | A valid note list casts element by element into notes, keeping length and order |
| ApplicationsRoutes.ApplyFields | server/routes/applications.routes.js:25-29 | The apply handler passes only the path's job id, the caller's id and notes as the body's notes when truthy, else ""; full name, phone, CV path, LinkedIn, extra notes and status are all absent |
| ApplicationsRoutes.Apply | server/routes/applications.routes.js:13-35 | 404 "Job not found" for an unknown job; the answer is only ever 201, 404 or 500; only a 201 stores anything, and it stores an application for that job and caller |
| ApplicationsRoutes.ApplyAlwaysFails | server/routes/applications.routes.js:25-33 | For an existing job the create always throws (required paths missing), so the route answers 500 and stores nothing |
| ApplicationsRoutes.ApplyIgnoresExistingApplications | server/routes/applications.routes.js:13-35 | The answer does not depend on the applications already stored: there is no duplicate check |
| ApplicationsRoutes.ApplyEndpoint | server/routes/applications.routes.js:13 | Without valid authentication the answer is 401 and nothing changes; otherwise the caller from the token applies |
| ApplicationsRoutes.MyApplications | server/routes/applications.routes.js:41-51 | Lists exactly the caller's applications, each once, newest first |
| ApplicationsRoutes.AllApplications | server/routes/applications.routes.js:57-68 | Lists every application once, newest first |
| ApplicationsRoutes.UpdateStatus | server/routes/applications.routes.js:74-100 | 400 "Invalid status" unless the value is pending, reviewed, accepted or rejected (checked before the lookup); then 404 for an unknown id; otherwise 200 with only that application's status and updatedAt changed |
| ApplicationsRoutes.SetStatus | server/routes/applications.routes.js:84-94 | The lookup and write: 404 "Application not found" for an unknown id, else only that application's status and updatedAt change |
| ApplicationsRoutes.RouteAndSchemaStatusesOverlap | server/routes/applications.routes.js:79 | Of the route's four values only pending and rejected are schema stages |
| ApplicationsRoutes.UpdateStatusLeavesSchema | server/routes/applications.routes.js:79-88 | Setting "reviewed" on a stored application succeeds and leaves the collection with an application outside the status enum |
| ApplicationsRoutes.UpdateStatusRefusesStages | server/routes/applications.routes.js:79-82 | Every stage other than pending and rejected is refused with 400 |
| ApplicationsRoutes.UpdateStatusToStage | server/routes/applications.routes.js:74-100 | Corrected handler: a value outside the seven stages answers 400 and changes nothing; a stage with an unknown id answers 404 and changes nothing; otherwise 200, only status and updatedAt change, and every stored application stays schema-valid |
| ApplicationsRoutes.StatusUpdatesPreserveWellFormed | server/routes/applications.routes.js:84-88 | Both status handlers keep every application stored under its own id |
| ApplicationsRoutes.UpdateStatusEndpoint | server/routes/applications.routes.js:74-100 | A request the admin gate stops gets 401 or 403 and changes nothing; an admin's request gets exactly the as-written status handler's answer and store |
| ApplicationsRoutes.CorrectedStatusEndpoint | server/routes/applications.routes.js:74-100 | The same route with the corrected handler: the admin gate as before, and a schema-valid collection stays schema-valid whoever calls it |
| AuthSession.Start | client/src/context/AuthContext.jsx:7-10 | The first render knows no user, token or role and is loading |
| AuthSession.Restore | client/src/context/AuthContext.jsx:13-26 | With all three saved values truthy the parsed user, token and role are restored and loading ends; with any missing, only loading ends; a parse failure aborts the effect; storage is only read |
| AuthSession.Login | client/src/context/AuthContext.jsx:29-37 | Sets user, token and role from the arguments and writes exactly the three saved keys, keeping every other key |
| AuthSession.Logout | client/src/context/AuthContext.jsx:39-47 | Clears user, token and role and removes exactly the three saved keys |
| AuthSession.LoginSurvivesReload | client/src/context/AuthContext.jsx:13-37 | A reload after login restores the same user, token and role when the user survives the JSON round trip and token and role are non-empty; with an empty token or role the reload is signed out |
| AuthSession.LogoutSurvivesReload | client/src/context/AuthContext.jsx:13-47 | A reload after logout is signed out and not loading |
| AuthSession.LogoutIdempotent | client/src/context/AuthContext.jsx:39-47 | Logging out twice is logging out once |
| Routing.ProtectedRoute | client/src/App.jsx:19-27 | Loading shows the placeholder; signed out redirects to /login; signed in shows the child |
| Routing.RoleRoute | client/src/App.jsx:29-40 | An allowed role sees the child; otherwise admin goes to /admin/jobs, user to /user/jobs, anyone else to /login |
| Routing.Resolve | client/src/App.jsx:47-118 | /login and /register, in any letter case, always show their pages |
| Routing.ResolveIgnoresCase | client/src/App.jsx:47-118 | Two locations that differ only in the letter case of their segments reach the same kind of view, and the same view except for the job id the detail and apply pages receive as typed |
| Routing.MixedCaseAdminLocation | client/src/App.jsx:52-61 | "/Admin/Jobs" shows a signed-in admin the admin job page |
| Routing.UnmatchedGoesToLogin | client/src/App.jsx:117 | Every location that matches no entry of the table, compared without letter case, redirects to /login |
| Routing.LoadingShowsPlaceholder | client/src/App.jsx:22 | Every guarded page shows the placeholder while the session loads |
| Routing.SignedOutGoesToLogin | client/src/App.jsx:24 | Every guarded page redirects a signed-out visitor to /login |
| Routing.AdminReachesEverything | client/src/App.jsx:52-114 | A signed-in admin sees every guarded location's own page: the admin job and application lists, the user lists, and the job details and apply form for the id in the location |
| Routing.GuardedLocationShowsItsPage | client/src/App.jsx:52-114 | Past both guards with a role the entry admits, each guarded location shows the page its shape names: four segments the apply form, three the job details, two the area's jobs or applications list |
| Routing.UserKeptOutOfAdmin | client/src/App.jsx:29-40 | A signed-in user sees a guarded location's own page exactly when it is not under /admin, and is sent to /user/jobs from admin pages |
| Routing.RedirectsSettle | client/src/App.jsx:29-40 | Once loading is over, following any redirect once reaches a shown page |
| Routing.GuardOf | client/src/context/AuthContext.jsx:49-57 | The guards see `isAuthenticated` exactly when the token is truthy, and the context's loading flag and role |
| Routing.LogoutLocksGuardedPages | client/src/App.jsx:19-27 | After logout every guarded page redirects to /login |
| StatusBar.StepsAreStages | client/src/components/StatusBar.jsx:3-11 | The bar's steps are the schema's seven stages in the same order |
| StatusBar.SafeStatus | client/src/components/StatusBar.jsx:13-14 | The shown status is always a step: the prop when it is one, else "pending" (also when absent) |
| StatusBar.CurrentIndex | client/src/components/StatusBar.jsx:15 | The index points at the shown status among the steps |
| StatusBar.IndexOf | client/src/components/StatusBar.jsx:15 | `indexOf` gives the first position holding the step |
| StatusBar.NodeColor | client/src/components/StatusBar.jsx:18-23 | In rejected mode every node has the rejected colour; otherwise nodes after the current one are grey and the rest take the reached colour |
| StatusBar.ConnectorColor | client/src/components/StatusBar.jsx:25-30 | Connectors after the current step have their own grey; every other connector has its node's colour |
| StatusBar.Nodes | client/src/components/StatusBar.jsx:44-46 | One node per step, coloured by `nodeColor` |
| StatusBar.Connectors | client/src/components/StatusBar.jsx:73-80 | One connector between each pair of neighbouring steps, coloured by `connectorColor` |
| StatusBar.RejectedBarIsUniform | client/src/components/StatusBar.jsx:16-30 | A rejected application's bar is one colour throughout |
| StatusBar.DefaultBarShape | client/src/components/StatusBar.jsx:18-23 | Without custom colours: past nodes slate, the current node blue, later nodes light grey |
| StatusBar.Label | client/src/components/StatusBar.jsx:115 | A label has the step's length; each underscore becomes a space and every other character is kept |
| StatusBar.LabelsDistinct | client/src/components/StatusBar.jsx:115 | The seven labels are pairwise different |
| ApplicationList.BadgeColor | client/src/components/ApplicationList.jsx:4-12 | pending gray, reviewed blue, accepted green, rejected red, anything else gray |
| ApplicationList.StagesMostlyGray | client/src/components/ApplicationList.jsx:4-12 | Every schema stage except rejected gets the gray badge |
| ApplicationList.SelectMatchesRoute | client/src/components/ApplicationList.jsx:74-77 | The status select offers exactly the values the status route accepts |
| ApplicationList.Columns | client/src/components/ApplicationList.jsx:37-43 | The Applicant and Change Status columns appear exactly for the admin role, which is also the default |
| ApplicationList.Render | client/src/components/ApplicationList.jsx:29-32 | A missing or empty list shows "No applications found."; otherwise a table with those columns and rows |
| ApplicationList.ChooseStatus | client/src/components/ApplicationList.jsx:68-80 | Only the admin view reports a status choice, for that row and with a value the route accepts |
| AdminJobsPage.SalaryRange | client/src/pages/AdminJobsPage.jsx:81-85 | Both bounds give "$min - $max", one bound alone "$x", none the caller's fallback |
| AdminJobsPage.FormatSalary | client/src/pages/AdminJobsPage.jsx:79-87 | No job, or no truthy bound, gives "—"; otherwise the salary range |
| AdminJobsPage.FormatSalaryShape | client/src/pages/AdminJobsPage.jsx:79-87 | The text starts with "$" exactly when some bound is truthy, and contains " - " when both are |
| AdminJobsPage.ReplaceById | client/src/pages/AdminJobsPage.jsx:42 | After a save the list keeps its length and replaces exactly the entries with the saved id |
| AdminJobsPage.ReplaceByIdIdempotent | client/src/pages/AdminJobsPage.jsx:42 | Applying the same saved edit twice equals once, and the other jobs are untouched |
| AdminJobsPage.Prepend | client/src/pages/AdminJobsPage.jsx:45 | A created job goes first, followed by the old list |
| AdminJobsPage.DeleteById | client/src/pages/AdminJobsPage.jsx:58 | After a delete no entry has that id, and every other job keeps exactly its number of occurrences |
| AdminJobsPage.DeleteKeepsOrder | client/src/pages/AdminJobsPage.jsx:58 | The remaining jobs keep their order, and deleting again changes nothing |
| AdminJobsPage.CountCompanies | client/src/pages/AdminJobsPage.jsx:66-68 | The company metric is the number of distinct companies: 0 exactly for an empty list, never more than the jobs |
| AdminJobsPage.NewThisMonth | client/src/pages/AdminJobsPage.jsx:69-75 | The count is 0 exactly when no job was posted this month and equals the list length exactly when all were; a job without a date never counts |
| AdminJobsPage.NewThisMonthAppend | client/src/pages/AdminJobsPage.jsx:71-75 | The count over two lists joined is the sum of their counts |
| AdminJobsPage.MetricsAfterUpdates | client/src/pages/AdminJobsPage.jsx:45-75 | Saving a job posted this month raises the count by one; deleting never raises it |
| AdminJobsPage.JobMetrics | client/src/pages/AdminJobsPage.jsx:66-77 | Both metrics together; an empty list gives zero for both |
| JobDetailsPage.SalaryText | client/src/pages/JobDetailsPage.jsx:80-84 | No truthy bound gives "Not provided" |
| JobDetailsPage.SalaryAgreesWithAdminPage | client/src/pages/JobDetailsPage.jsx:80-84 | With some truthy bound the details page shows the admin page's salary text; with none the two pages differ ("Not provided" against "—") |
| JobDetailsPage.LocationTypeText | client/src/pages/JobDetailsPage.jsx:73 | A missing or empty location type shows "N/A" |
| JobDetailsPage.JobTypeText | client/src/pages/JobDetailsPage.jsx:76 | A missing or empty job type shows "N/A" |
| JobDetailsPage.DescriptionText | client/src/pages/JobDetailsPage.jsx:94 | A missing or empty description shows "No description provided." |
| JobDetailsPage.Items | client/src/pages/JobDetailsPage.jsx:108-112 | Filtering keeps at most the lines given, and all of them when none is empty |
| JobDetailsPage.ItemsAppend | client/src/pages/JobDetailsPage.jsx:108-112 | The items of two runs of lines are the items of each run, in order |
| JobDetailsPage.ItemsOfOneLine | client/src/pages/JobDetailsPage.jsx:108-112 | An empty line gives no item, any other line exactly its trimmed text (with ItemsAppend: empty lines dropped, the rest trimmed, in order) |
| JobDetailsPage.RequirementItems | client/src/pages/JobDetailsPage.jsx:104-113 | The requirements list appears exactly when the text is truthy, and is then the items of the text's lines split at newlines |
| JobDetailsPage.ItemsOfNonEmptyLines | client/src/pages/JobDetailsPage.jsx:108-112 | Lines that are all non-empty become their trimmed texts, in order |
| JobDetailsPage.RequirementsOnePerLine | client/src/pages/JobDetailsPage.jsx:108-112 | Non-empty lines joined by newlines give one trimmed item per line; a whitespace-only line gives an empty item, because the filter runs before the trim |
| PageForms.Pad | client/src/pages/UserApplicationDetailsPage.jsx:344 | At least two digits, exactly two below 100, and the digits read back as the number |
| PageForms.PadAddsAtMostOneZero | client/src/pages/UserApplicationDetailsPage.jsx:344 | A one-digit number gets exactly one leading zero, and a number from 10 up is written without padding |
| PageForms.LocalInputRoundTrip | client/src/pages/UserApplicationDetailsPage.jsx:342-351 | For a real date with a four-digit year the input value has 16 characters, with "-", "-", "T", ":" at positions 4, 7, 10, 13 and digits elsewhere, and reads back to the same year, month, day, hour and minute |
| PageForms.DateInputValue | client/src/pages/UserApplicationDetailsPage.jsx:44 | No stored date gives ""; a stored date gives its 16-character local value, which reads back to it |
| PageForms.NoteToSend | client/src/pages/UserApplicationDetailsPage.jsx:93-98 | `addNote` (the admin page's at AdminApplicationDetailsPage.jsx lines 103-108 is the same): a blank note sends nothing; otherwise the trimmed, non-empty text is sent |
| PageForms.OptionalDate | client/src/pages/UserApplicationDetailsPage.jsx:114 | An empty input sends null; otherwise the ISO text of the input |
| UserApplicationDetails.Load | client/src/pages/UserApplicationDetailsPage.jsx:37-57 | Loading keeps the application, shows its reminder in the input ("" when none), seeds each draft from its field or "", clears the file, and leaves edit mode alone |
| UserApplicationDetails.CancelEdits | client/src/pages/UserApplicationDetailsPage.jsx:83-91 | With no application nothing changes; otherwise each draft goes back to the application's field or "", the file is cleared and edit mode ends |
| UserApplicationDetails.CancelDiscardsEdits | client/src/pages/UserApplicationDetailsPage.jsx:44-91 | Whatever was typed after a load, cancel restores the drafts the load seeded, and a second cancel changes nothing |
| UserApplicationDetails.LinkedInHref | client/src/pages/UserApplicationDetailsPage.jsx:176 | A stored text starting with "http" is the link unchanged, and exactly then; any other text gets exactly the prefix "https://" |
| UserApplicationDetails.LinkedInHrefIdempotent | client/src/pages/UserApplicationDetailsPage.jsx:176 | Normalising twice equals normalising once |
| UserApplicationDetails.ReminderPayload | client/src/pages/UserApplicationDetailsPage.jsx:112-115 | An empty reminder input sends null; otherwise the ISO time of the input |
| UserApplicationDetails.UntouchedReminderRoundTrip | client/src/pages/UserApplicationDetailsPage.jsx:112-115 | Saving the reminder right after a load sends null exactly when the application had none, and otherwise the ISO time of the loaded value |
| AdminApplicationDetails.StatusOptionsAreStages | client/src/pages/AdminApplicationDetailsPage.jsx:10-18 | The option values are the seven schema stages in schema order |
| AdminApplicationDetails.InterviewStagesAmongStages | client/src/pages/AdminApplicationDetailsPage.jsx:38-41 | Among the seven stages, exactly technical_interview and hr_interview count as interview stages |
| AdminApplicationDetails.LoadForm | client/src/pages/AdminApplicationDetailsPage.jsx:55-61 | A missing or empty status becomes "pending"; a missing interview date becomes ""; missing interview texts become "" |
| AdminApplicationDetails.SaveInterview | client/src/pages/AdminApplicationDetailsPage.jsx:82-92 | An empty date is sent as null, otherwise as ISO text; location, link and notes pass through unchanged |
| AdminApplicationDetails.UntouchedInterviewRoundTrip | client/src/pages/AdminApplicationDetailsPage.jsx:55-92 | Saving right after a load sends a null date exactly when the application had none, and the stored texts or "" |
| AdminApplicationDetails.SaveStatusOutcomes | client/src/pages/AdminApplicationDetailsPage.jsx:69-80 | Of the seven options the status route as written refuses all but pending and rejected with 400; the corrected route accepts every option for an existing application |

## Left out

- Rendering, styles, the `loading`/`saving`/`error` flags of the pages and the navigation bar: presentation only.
- HTTP transport and the client API wrappers, including the axios 401 interceptor that clears storage: network I/O. Each page update takes the server's answer as a parameter.
- `populate(...)` on the application queries: joining the job and user documents is a store query the model does not carry. Listings return the stored records.
- The catch-all 500 of every handler (database or driver exceptions) other than a failed create or an id clash: store failures are not modelled. 500 replies carry the empty message, because the model does not keep `error.message`.
- `jwt.verify` and the JWT secret: the verifier is a parameter.
- `role.middleware.js` is not part of this model. `adminOnly` is modelled as "role is admin, else 403" with an unspecified message.
- Disk storage and directory creation in the upload config: file-system I/O. Only the name, the filter and the size limit are modelled.
- `Date` arithmetic and time zones: `now`, the local-time components of a stored date and the conversion to ISO text are parameters. Years are `nat`, and the 16-character input form is proved for four-digit years only.
- Mongo ObjectId generation and URL path parsing: ids are natural numbers chosen by the caller, and client locations are given as path segments.
- `Text.ToLower`: lower-cases ASCII letters only, because `toLowerCase` on other scripts is Unicode case mapping.
- Routing.Resolve: compares segments after ASCII lower-casing, so two locations that differ only in the case of non-ASCII letters are treated as different, where the router's case-insensitive match would join them.
- ApplicationModel.NotesValid: a plain string given for `notes` is taken to fail the cast to a note list. This is how the apply handler's `notes || ""` reaches the schema.
- JobModel.Patch: update validators and casting of the request body are not modelled. Mongoose runs updates without validators by default, so values are stored as given.
- JobDetailsPage.SalaryText: states only the "Not provided" case. The salary text proper is stated through SalaryAgreesWithAdminPage.
- The user page's save-edits request (a multipart form) and the "Posted"/"Applied at" date strings: their server routes and `toLocaleString` are not part of this model.
- The client calls with no exported API function or server route (analytics, tracking, notes, reminders, interviews, the user's save-edits form, fetching one application, fetching one job): no server code to model. The local payloads the pages build are modelled.

## Findings

| source | as written | input that shows it | evidently intended | confidence | as-written member | corrected member |
|---|---|---|---|---|---|---|
| server/routes/applications.routes.js:79 | The status route allows `pending`, `reviewed`, `accepted`, `rejected`. The schema's status enum (server/models/Application.js:28-36) has none of `reviewed`/`accepted`, and the route runs without update validators. | PUT /api/applications/:id/status with `{"status": "reviewed"}` on a stored application answers 200 and stores a status outside the enum. `{"status": "offer"}` (one of the admin page's options) answers 400. | The route accepts exactly the seven schema stages that the admin detail page offers. | not executed | ApplicationsRoutes.UpdateStatus (shown by ApplicationsRoutes.UpdateStatusLeavesSchema and ApplicationsRoutes.UpdateStatusRefusesStages) | ApplicationsRoutes.UpdateStatusToStage (mounted as ApplicationsRoutes.CorrectedStatusEndpoint) |
