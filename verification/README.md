# Trujillo Informado client — a Dafny model

A model of the React client of a municipal cleanliness-reporting system. Citizens file
reports (uncollected waste, dirty streets, overgrown weeds). Supervisors see the reports of
their zone and assign them to workers. Workers see their tasks and complete them with photo
evidence.

The model covers the client's own logic:

- the domain records (users, reports, tasks, zones) and their closed literal sets;
- the role-scoped lists and counters of the three dashboards;
- the button guards ("Asignar", "Iniciar", "Completar");
- the three form dialogs, with their photo lists, validation and reset;
- the `useReports` report cache;
- the payload-unwrapping rules and endpoint paths of the two services;
- the route guard and role redirects;
- the demo login;
- the demo fixtures.

Pure code is modelled as functions and lemmas. Components that keep state are classes whose
methods update their fields: the supervisor dashboard's fetched lists and filter, the worker
page's selected task, the three dialogs, the report cache, the auth session and the login form.

The user's role and the report and task fields that the source declares as literal unions
(type, status, priority) are kept as strings. The declared sets are datatypes with `Literal()` and a `Parse…` inverse.
`WellTypedUser`, `WellTypedReport` and `WellTypedTask` say that a record carries the declared
lower-case literals.
This split matters because the citizen and supervisor dashboards compare statuses and
priorities with UPPER-case literals. The declared types, the fixtures and the supervisor's
priority filter all use lower-case ones. The model keeps every comparison literally as written
and proves what follows from it:

- over well-typed reports, every upper-case counter is zero (`Counters.CountReportStatuses`);
- two displays that evidently should agree do not (see Findings).

The source field `type` is called `kind`, because `type` is a Dafny keyword.

Modules, one per source file, plus three shared ones:

- `Wrappers` holds `Option` and `Call`, the outcome of an awaited call.
- `Lists` holds `filter`, `find` and remove-at-index.
- `Counters` holds the counters that all three dashboards share.

## Model

| member | source | states |
|---|---|---|
| Lists.Filter | src/pages/CitizenDashboard.tsx:33 | `Array.prototype.filter`: keeps exactly the elements satisfying the predicate, each as often as before, in their original order (a subsequence, never longer) |
| Lists.Find | src/contexts/AuthContext.tsx:59 | `Array.prototype.find`: None exactly when no element matches; otherwise a matching element with no match before it |
| Lists.FindByUniqueKey | src/components/AssignTaskDialog.tsx:83 | when keys are distinct, looking an element up by its own key returns that element |
| Lists.RemoveIndex | src/components/CompleteTaskDialog.tsx:49 | `filter((_, i) => i !== index)`: in range, one element shorter, the prefix kept and the rest shifted left by one; out of range, the list unchanged |
| Lists.CountsOfExclusive | src/pages/WorkerDashboard.tsx:31-35 | three counts over mutually exclusive predicates add up to at most the length, and to exactly the length when every element satisfies one |
| Lists.NoneMatch | src/pages/CitizenDashboard.tsx:229 | the empty-state test `list.length === 0` of a status tab (here and at WorkerDashboard.tsx:212) holds exactly when no element satisfies the tab's predicate |
| Lists.FilterAppend | src/hooks/useReports.ts:68 | filtering a concatenation is concatenating the filtered parts |
| Domain.ParseRole | src/types/index.ts:5 | a role string parses exactly when it is one of the three role literals, and then to the role with that literal |
| Domain.ParseReportKind | src/types/index.ts:16 | the same for the three problem types; reports and tasks (line 45) share this one set |
| Domain.ParseReportStatus | src/types/index.ts:24 | the same for the three report statuses |
| Domain.ParseTaskStatus | src/types/index.ts:51 | the same for the three task statuses |
| Domain.ParsePriority | src/types/index.ts:25 | the same for the three priorities, shared by reports and tasks (line 52) |
| Counters.DeclaredIsNotUpper | src/types/index.ts:24-25 | a well-typed report's status and priority are never among the upper-case literals the dashboards count |
| Counters.UpperCountsOfWellTyped | src/pages/CitizenDashboard.tsx:76-80 | over well-typed reports, filtering by any upper-case status or priority literal gives nothing |
| Counters.UpperStatusesCovered | src/pages/CitizenDashboard.tsx:76-80 | when every status is an upper-case literal, the three status counts add up to the list length |
| Counters.UpperPrioritiesCovered | src/pages/SupervisorDashboard.tsx:64-68 | when every priority is an upper-case literal, the three priority counts add up to the list length |
| Counters.CountReportStatuses | src/pages/CitizenDashboard.tsx:76-80 | status counters: the total is at most the number of reports; it equals that number when all statuses are upper-case; all three are zero for well-typed reports |
| Counters.CountReportPriorities | src/pages/SupervisorDashboard.tsx:64-68 | the same three facts for the priority counters |
| Counters.CountTaskStatuses | src/pages/WorkerDashboard.tsx:31-35 | task status counters: the total is at most the number of tasks, and equals it when all tasks are well-typed |
| CitizenDashboard.UserIdText | src/pages/CitizenDashboard.tsx:33 | `String(user?.id)`: the user's id, or "undefined" when nobody is signed in |
| CitizenDashboard.UserReports | src/pages/CitizenDashboard.tsx:33 | exactly the reports whose citizen id equals the user id as a string, with multiplicities, in order |
| CitizenDashboard.StatusTab | src/pages/CitizenDashboard.tsx:223-224 | a status tab lists exactly the user's reports with that status, in order |
| CitizenDashboard.CountersMatchTabs | src/pages/CitizenDashboard.tsx:76-80 | each stat card's counter equals the length of the matching status tab |
| CitizenDashboard.RenderScreen | src/pages/CitizenDashboard.tsx:86-109 | loading wins over an error, an error over the dashboard; the dashboard shows exactly the user's reports (`UserReports`) with the status counters of that list, which never exceed its length |
| CitizenDashboard.SelectedTabContent | src/pages/CitizenDashboard.tsx:190-221 | as written: "todos" shows all of the user's reports; only an upper-case status value selects a status list |
| CitizenDashboard.StatusTriggersShowNothing | src/pages/CitizenDashboard.tsx:190-221 | as written, each of the three status triggers selects no content at all |
| CitizenDashboard.FixedSelectedTabContent | src/pages/CitizenDashboard.tsx:190-245 | with contents keyed by the trigger values, every trigger opens a list, and each status list is as long as its stat card's counter |
| SupervisorDashboard.ZoneReports | src/pages/SupervisorDashboard.tsx:39 | exactly the fetched reports of the user's zone, with multiplicities, in order |
| SupervisorDashboard.SupervisedTasks | src/pages/SupervisorDashboard.tsx:41 | exactly the fetched tasks whose supervisor is the user, with multiplicities, in order |
| SupervisorDashboard.FilteredReports | src/pages/SupervisorDashboard.tsx:53-56 | as written: "todas" keeps every zone report; otherwise exactly those whose priority equals the selected value; always a subsequence of the zone reports |
| SupervisorDashboard.DeclaredReportsNeverAssignable | src/pages/SupervisorDashboard.tsx:195 | the "Asignar" guard (status equals "PENDIENTE") never holds for a report with a declared lower-case status |
| SupervisorDashboard.PriorityFilterMissesCountedReport | src/pages/SupervisorDashboard.tsx:163-165 | as written, a report with priority "ALTA" is counted on the high-priority card, but the "alta" filter option hides it |
| SupervisorDashboard.FixedFilteredReports | src/pages/SupervisorDashboard.tsx:53-68 | with each option mapped to its counter's literal, "todas" keeps every zone report, and each option shows exactly as many reports as its counter |
| SupervisorDashboard.Dashboard.constructor | src/pages/SupervisorDashboard.tsx:29-33 | no reports, no tasks, filter "todas" |
| SupervisorDashboard.Dashboard.Load | src/pages/SupervisorDashboard.tsx:35-51 | no fetch without a zone and an id; the zone's reports are stored before the tasks are asked for; a rejected report call stops before the tasks; either rejection raises the error toast; the filter is untouched |
| SupervisorDashboard.Dashboard.SetFilterPriority | src/pages/SupervisorDashboard.tsx:157 | choosing a priority changes only the filter, so the status and priority counters stay the same |
| SupervisorDashboard.Dashboard.Visible | src/pages/SupervisorDashboard.tsx:53-56 | as the page is written: the listed reports are a subsequence of the zone reports; all of them under "todas"; under any other value exactly those whose priority equals it |
| WorkerDashboard.WorkerTasks | src/pages/WorkerDashboard.tsx:29 | exactly the tasks assigned to the user, in order; none when nobody is signed in |
| WorkerDashboard.PageCountersCoverTasks | src/pages/WorkerDashboard.tsx:29-35 | on the page (fixture tasks), the three counters add up to the number of tasks shown, for any user |
| WorkerDashboard.StatusTab | src/pages/WorkerDashboard.tsx:182-183 | a status tab lists exactly the worker's tasks with that status, in order |
| WorkerDashboard.CountersMatchTabs | src/pages/WorkerDashboard.tsx:31-35 | each counter equals the length of its status tab |
| WorkerDashboard.ButtonsFollowStatus | src/pages/WorkerDashboard.tsx:152-171 | no task is offered both "Iniciar" and "Completar"; a well-typed task is offered neither exactly when it is "completada" |
| WorkerDashboard.TabButtonsMatchTaskButtons | src/pages/WorkerDashboard.tsx:188-198 | inside a status tab, the tab-based button guards agree with the task's own guards |
| WorkerDashboard.WorkerPage.constructor | src/pages/WorkerDashboard.tsx:26 | no task selected |
| WorkerDashboard.WorkerPage.StartTask | src/pages/WorkerDashboard.tsx:37-42 | starting a task changes no state (only a toast is shown) |
| WorkerDashboard.WorkerPage.CompleteTask | src/pages/WorkerDashboard.tsx:44-46 | "Completar" selects the task for the evidence dialog |
| WorkerDashboard.WorkerPage.TaskCompleted | src/pages/WorkerDashboard.tsx:48-54 | after completion the selection is cleared |
| CompleteTaskDialog.EvidenceForm.constructor | src/components/CompleteTaskDialog.tsx:33-35 | not loading, empty notes, no photos |
| CompleteTaskDialog.EvidenceForm.AddPhoto | src/components/CompleteTaskDialog.tsx:37-46 | exactly one photo appended at the end, the earlier ones unchanged, nothing else changed |
| CompleteTaskDialog.EvidenceForm.RemovePhoto | src/components/CompleteTaskDialog.tsx:48-50 | exactly the photo at the index removed, the others in order; nothing else changed |
| CompleteTaskDialog.EvidenceForm.SetNotes | src/components/CompleteTaskDialog.tsx:187-188 | only the notes change |
| CompleteTaskDialog.EvidenceForm.Submit | src/components/CompleteTaskDialog.tsx:52-80 | accepted exactly when there is at least one photo, whatever the notes; a rejection changes nothing and does not call `onCompleted`; success clears notes and photos, ends loading and calls `onCompleted`; an enabled button always leads to acceptance |
| CreateReportDialog.PhotosNotRequired | src/components/CreateReportDialog.tsx:101 | the photos never decide whether a draft may be submitted |
| CreateReportDialog.EmptyDraftNotSubmittable | src/components/CreateReportDialog.tsx:121-126 | the reset form fails the required-field check |
| CreateReportDialog.OfferedKindsAreDeclared | src/components/CreateReportDialog.tsx:41-45 | the type cards offer exactly the declared report types |
| CreateReportDialog.OfferedKindFillsType | src/components/CreateReportDialog.tsx:157 | after choosing a card, only description and address decide the check |
| CreateReportDialog.ReportForm.constructor | src/components/CreateReportDialog.tsx:28-39 | empty type and description, location (0, 0, ""), no photos, not loading |
| CreateReportDialog.ReportForm.SetKind | src/components/CreateReportDialog.tsx:157 | only the type changes |
| CreateReportDialog.ReportForm.SetDescription | src/components/CreateReportDialog.tsx:176-177 | only the description changes |
| CreateReportDialog.ReportForm.SetAddress | src/components/CreateReportDialog.tsx:203-207 | only `location.address` changes; the coordinates and the other fields stay |
| CreateReportDialog.ReportForm.GetLocation | src/components/CreateReportDialog.tsx:47-75 | a found location sets lat, lng and address together; a failure keeps the old location; type, description and photos never change; the lookup flag ends cleared |
| CreateReportDialog.ReportForm.AddPhoto | src/components/CreateReportDialog.tsx:77-89 | one URL appended to the photos; nothing else changes |
| CreateReportDialog.ReportForm.RemovePhoto | src/components/CreateReportDialog.tsx:91-96 | exactly the photo at the index removed; nothing else changes |
| CreateReportDialog.ReportForm.Submit | src/components/CreateReportDialog.tsx:98-130 | accepted exactly when type, description and address are all non-empty; a rejection changes nothing; success resets the form to its initial record, ends loading and closes the dialog |
| AssignTaskDialog.FindWorker | src/components/AssignTaskDialog.tsx:83 | the lookup by id: None exactly when no available worker has the id, otherwise a worker with that id |
| AssignTaskDialog.AvailableWorkerIdsDistinct | src/components/AssignTaskDialog.tsx:27-52 | the available workers' ids are pairwise distinct |
| AssignTaskDialog.LookupReturnsSelectedWorker | src/components/AssignTaskDialog.tsx:83 | selecting a worker's card and looking its id up gives back that worker |
| AssignTaskDialog.EveryKindHasSpecialist | src/components/AssignTaskDialog.tsx:156 | every declared report type is among some available worker's specialties |
| AssignTaskDialog.TypeLabel | src/components/AssignTaskDialog.tsx:99-106 | a declared type gets a non-empty label different from its literal; any other string is shown as is |
| AssignTaskDialog.TypeLabelsDistinct | src/components/AssignTaskDialog.tsx:99-106 | the three declared types get three different labels |
| AssignTaskDialog.PriorityColor | src/components/AssignTaskDialog.tsx:108-115 | the variant is one of three badge variants, and is "destructive" exactly for high priority |
| AssignTaskDialog.PriorityColorInjective | src/components/AssignTaskDialog.tsx:108-115 | different priorities get different variants |
| AssignTaskDialog.AssignmentForm.constructor | src/components/AssignTaskDialog.tsx:61-64 | not loading, no worker, priority media, empty notes |
| AssignTaskDialog.AssignmentForm.SelectWorker | src/components/AssignTaskDialog.tsx:165 | only the selected worker changes |
| AssignTaskDialog.AssignmentForm.SetPriority | src/components/AssignTaskDialog.tsx:216 | only the priority changes |
| AssignTaskDialog.AssignmentForm.SetNotes | src/components/AssignTaskDialog.tsx:234-235 | only the notes change |
| AssignTaskDialog.AssignmentForm.Submit | src/components/AssignTaskDialog.tsx:66-97 | accepted exactly when a worker is selected, whatever its specialty, load or rating; a rejection changes nothing; success looks the worker up, resets worker, priority ("media") and notes, ends loading and calls `onAssigned`; an enabled button always leads to acceptance |
| UseReports.MergeLaws | src/hooks/useReports.ts:53-56 | merging an empty patch changes nothing; merging the same patch twice equals merging it once |
| UseReports.UpdateMatching | src/hooks/useReports.ts:54-56 | same length; every entry with the id is merged with the patch; every other entry is unchanged |
| UseReports.UpdateMatchingLaws | src/hooks/useReports.ts:53-56 | updating twice with the same patch equals updating once; an empty patch changes no entry |
| UseReports.RemoveById | src/hooks/useReports.ts:68 | exactly the entries with another id, with multiplicities, in order |
| UseReports.DeleteUndoesCreate | src/hooks/useReports.ts:33-73 | appending a report with a fresh id and then deleting that id gives back the original list |
| UseReports.ReportCache.constructor | src/hooks/useReports.ts:6-8 | no reports, loading, no error |
| UseReports.ReportCache.FetchReports | src/hooks/useReports.ts:10-31 | array data replaces the list and clears the error; non-array data empties the list and clears the error; a failure empties the list and sets "Error al cargar reportes"; loading ends either way |
| UseReports.ReportCache.CreateReport | src/hooks/useReports.ts:33-46 | a created report is appended once; a falsy result leaves the list; a failure leaves the list and throws "Error al crear reporte"; loading and error untouched |
| UseReports.ReportCache.UpdateReport | src/hooks/useReports.ts:48-63 | the returned fields are merged into the entries with that id; a falsy result leaves the list; a failure leaves the list and throws "Error al actualizar reporte" |
| UseReports.ReportCache.DeleteReport | src/hooks/useReports.ts:65-73 | success removes exactly the entries with that id; a failure leaves the list and throws "Error al eliminar reporte" |
| Wire.Prop | src/services/reportService.ts:11 | property access: an object's own field, otherwise undefined |
| Wire.UnwrapList | src/services/reportService.ts:11-23 | the first array among the named property, `data` and the body itself, else the empty list |
| Wire.BareListPassesThrough | src/services/reportService.ts:17-19 | a bare array body is returned as it is |
| Wire.WrappedListUnwraps | src/services/reportService.ts:11-16 | a list wrapped under the payload key or under `data` comes back unwrapped |
| Wire.NoListGivesEmpty | src/services/reportService.ts:21-23 | a body with no array where the rule looks gives the empty list |
| Wire.UnwrapItem | src/services/reportService.ts:33-39 | the first truthy value among the named property, `data` and the body itself; truthy exactly when the body is |
| Wire.WrappedItemUnwraps | src/services/reportService.ts:33-38 | a truthy item wrapped under the payload key or under `data` comes back unwrapped |
| Wire.BareItemPassesThrough | src/services/reportService.ts:39 | an object with neither wrapper field comes back as it is |
| Wire.PrefixedPathsInjective | src/services/reportService.ts:43 | appending ids to one prefix gives different paths for different ids |
| ReportService.ReportPath | src/services/reportService.ts:43 | "/reporte", a slash, then exactly the id |
| ReportService.ReportPathsDistinct | src/services/reportService.ts:43-57 | different ids give different paths, and no report path equals the list path or the create path |
| ReportService.GetReports | src/services/reportService.ts:5-24 | GET /reportes; the result is always a list, taken from `reportes`, `data` or the body itself, in that order, or empty |
| ReportService.CreateReport | src/services/reportService.ts:26-40 | POST /reporte with the draft; the result is `reporte`, `data` or the body, and is truthy exactly when the body is |
| ReportService.UpdateReport | src/services/reportService.ts:42-54 | PUT /reporte/{id}; the result is picked exactly as `createReport` picks it |
| ReportService.DeleteReport | src/services/reportService.ts:56-58 | DELETE on the same path the update uses, with no body |
| TaskService.TaskPath | src/services/taskService.ts:32 | "/tarea", a slash, then exactly the id |
| TaskService.TaskPathsDistinct | src/services/taskService.ts:32-43 | different ids give different paths; no task path is the list path, the create path or a report path |
| TaskService.GetTasks | src/services/taskService.ts:5-17 | GET /tareas; the result is always a list, taken from `tareas`, `data` or the body itself, in that order, or empty |
| TaskService.CreateTask | src/services/taskService.ts:19-29 | POST /tarea with the draft; the result is `tarea`, `data` or the body, and is truthy exactly when the body is |
| TaskService.UpdateTask | src/services/taskService.ts:31-40 | PUT /tarea/{id}; the result is picked exactly as `createTask` picks it |
| TaskService.DeleteTask | src/services/taskService.ts:42-44 | DELETE on the same path the update uses, with no body |
| TaskService.TaskRuleIgnoresReportKey | src/services/taskService.ts:7-9 | the task rule reads `tareas`, not `reportes`: a list under `reportes` alone is found by the report rule and not by the task rule |
| AppRoutes.ProtectedRoute | src/App.tsx:16-42 | spinner while loading; /login for nobody; "/" for a role the route does not admit; the page exactly when the role is admitted |
| AppRoutes.HomeTarget | src/App.tsx:68-76 | /login for nobody and for a role that is not declared; one of the three dashboard paths for a declared role |
| AppRoutes.Route | src/App.tsx:45-57 | every path shows the spinner while the session loads |
| AppRoutes.LoginRedirectsWhenSignedIn | src/App.tsx:63 | /login redirects exactly when someone is signed in |
| AppRoutes.HomeLeadsToOwnDashboard | src/App.tsx:68-76 | following the home redirect shows a user with a declared role their own dashboard and nobody the login page; a user with any other role is redirected on from the login page back home |
| AppRoutes.EachDashboardAdmitsOneRole | src/App.tsx:80-105 | each dashboard route shows its page to exactly one role |
| AppRoutes.NavigationSettles | src/App.tsx:59-110 | once loaded, for nobody and for a declared role, every path reaches a page within two redirects; nobody ends on login or not-found; home and login lead a user with a declared role to their own dashboard |
| AppRoutes.UndeclaredRoleLoops | src/App.tsx:63-76 | as written, a session whose role is not declared alternates between "/" and "/login" for any number of redirects and never reaches a page |
| AppRoutes.FixedRoute | src/App.tsx:59-110 | the router with the login redirect reserved for declared roles: identical to `Route` on every other path and for every declared role; on /login it redirects exactly such a user |
| AppRoutes.FixedNavigationSettles | src/App.tsx:59-110 | with the corrected router every session, whatever its role, reaches a page within two redirects; declared roles still land on their own dashboard |
| AuthContext.FindUserByEmail | src/contexts/AuthContext.tsx:59 | None exactly when no account has the e-mail, otherwise an account with that e-mail |
| AuthContext.RoleHasOneAccount | src/contexts/AuthContext.tsx:14-38 | each declared role has exactly one demo account |
| AuthContext.MockUsersDistinct | src/contexts/AuthContext.tsx:14-38 | the accounts' e-mails are distinct, every account carries a declared role, and each role has exactly one account |
| AuthContext.EveryAccountLogsIn | src/contexts/AuthContext.tsx:59-61 | every account is accepted with its e-mail and "demo123", and the lookup returns that very account |
| AuthContext.AuthSession.constructor | src/contexts/AuthContext.tsx:41-42 | nobody signed in, loading |
| AuthContext.AuthSession.RestoreSession | src/contexts/AuthContext.tsx:44-51 | with nothing stored the user stays and loading ends; a stored string that parses is restored as the user, whatever its role, and loading ends; a string `JSON.parse` rejects throws first, so the user and the loading flag stay as they were |
| AuthContext.AuthSession.Login | src/contexts/AuthContext.tsx:53-70 | succeeds exactly for a known e-mail with "demo123", and then holds the first account with that e-mail; a failure leaves the user; loading ends either way |
| AuthContext.AuthSession.Logout | src/contexts/AuthContext.tsx:72-75 | nobody is signed in afterwards |
| LoginPage.DemoEmailsLogIn | src/pages/Login.tsx:40-59 | one demo card per account, in order, and every card's e-mail is accepted with "demo123" |
| LoginPage.LoginForm.constructor | src/pages/Login.tsx:12-14 | empty e-mail, password and error |
| LoginPage.LoginForm.SetEmail | src/pages/Login.tsx:101 | only the e-mail changes |
| LoginPage.LoginForm.SetPassword | src/pages/Login.tsx:113 | only the password changes |
| LoginPage.LoginForm.HandleSubmit | src/pages/Login.tsx:18-38 | on a form that stays mounted (the intended behaviour, see Findings): the error is cleared first; an empty field sets "Por favor complete todos los campos" and the session is not asked; otherwise success exactly when the session accepts, and a refusal sets "Credenciales inválidas" |
| LoginPage.ShownAfterSubmit | src/pages/Login.tsx:18-38 | as wired in the shell (src/App.tsx:48-57, src/contexts/AuthContext.tsx:54): an empty field shows the fields error; otherwise the form stays on screen exactly for a visitor who was refused, and it is then a blank form with no error |
| LoginPage.RefusedLoginShowsBlankForm | src/pages/Login.tsx:27-31 | as written, refused credentials leave a blank form on screen without "Credenciales inválidas" and without what was typed |
| LoginPage.LoginForm.QuickLogin | src/pages/Login.tsx:61-64 | the e-mail becomes the card's e-mail and the password "demo123"; the error stays |
| MockData.FindReport | src/data/mockData.ts:101 | a task's `reportId` lookup: a report with that id, or None exactly when there is none |
| MockData.ZoneBoundariesArePolygons | src/data/mockData.ts:9-26 | every zone boundary has at least three vertices |
| MockData.MockFixturesWellTyped | src/data/mockData.ts:30-143 | every fixture report and task carries the declared lower-case literals |
| MockData.ReportIdsDistinct | src/data/mockData.ts:30-97 | the fixture reports' ids are distinct |
| MockData.AssignmentFieldsTogether | src/data/mockData.ts:30-97 | `assignedTo`, `assignedBy` and `assignedAt` are set together; the pending report has none of them |
| MockData.ResolvedReportsHaveEvidence | src/data/mockData.ts:86-95 | the resolved report has `completedAt` and at least one evidence photo |
| MockData.TasksMatchTheirReports | src/data/mockData.ts:99-143 | every task's report exists; the task's worker, supervisor and assignment time are that report's, and so are its type, description and location |
| MockData.ResolvedIffCompletedTask | src/data/mockData.ts:120-142 | a report is resolved exactly when a completed task refers to it; that task has a completion time and evidence equal to the report's |
| MockData.InProgressTasksStarted | src/data/mockData.ts:100-119 | a task in progress has `startedAt`, and its report is in progress |

## Left out

- Presentation: JSX, icons, badges, CSS classes and toasts. This includes the label, colour and icon maps of `ReportCard` and `TaskCard`. An error toast appears only as the `failed` result of `SupervisorDashboard.Dashboard.Load`.
- The axios client in `src/services/api.ts`: its base URL, interceptors, logging and `testConnection`.
- The HTTP calls themselves. Each service operation takes the response body as a parameter and returns the request it would issue.
- `uploadImage` in both services (multipart FormData).
- Decoding a JSON body into typed reports and tasks. The services work on an abstract JSON value. The hook and the dashboards take typed records, and each service outcome is a parameter.
- `Array.isArray` on a `useReports` value (`safeReports`, CitizenDashboard.tsx:30). The model's list is always a list, so the non-list branch cannot arise.
- The generated Supabase schema types, which have no runtime behaviour.
- Simulated delays (`setTimeout`) are taken as done. Each async handler is modelled as one sequential step. The one place where the session's intermediate `isLoading = true` is observable, the login page being unmounted by the spinner, is modelled by `LoginPage.ShownAfterSubmit` (see Findings).
- React effects and promise scheduling: re-renders, stale closures, and interleaving of concurrent handlers.
- `getCurrentLocation` and `reverseGeocode`. They use the browser geolocation API and `Math.random`. `CreateReportDialog.ReportForm.GetLocation` takes their outcome as a parameter, and coordinates are opaque reals with no arithmetic.
- `Date.now()` photo URLs. `AddPhoto` takes the new URL as a parameter.
- `localStorage`. `AuthContext.AuthSession.RestoreSession` takes the outcome of parsing the stored string as a parameter (nothing stored, a parsed user, or a rejected string); a string that parses to something other than a user record is not modelled. The writes on login and logout are not modelled.
- Number truthiness treats NaN as truthy, and `Wire.Prop` answers undefined for any non-object. Neither matters for the payload keys the services read.
- Report and task status transitions, atomic task-plus-report assignment, and zone or reassignment checks. No code in this client performs them, so the model has none. Starting a task changes nothing, and assigning or completing only resets a form.
- The worker dashboard reads the fixture tasks directly (`WorkerDashboard.PageTasks`), as the page does. It fetches nothing.
- The `report` prop of the assign dialog (`if (!report) return null`) only decides whether the dialog renders. Its submit never reads it.
- `getPriorityColor` is modelled over the declared priority type only. Its `default` branch is unreachable for typed callers.
- Path matching in the router: `AppRoutes.Route` compares paths by string equality, whereas the router library matches case-insensitively and accepts a trailing slash, so "/citizen/" or "/Citizen" reaches the dashboard in the application and the not-found page in the model.
- Browser form validation: the `required` and `type="email"` attributes of the login fields (src/pages/Login.tsx:99-115) and of the report description and address (src/components/CreateReportDialog.tsx:179, 208) stop the browser from submitting before the handlers run. The model calls the handlers directly, so the empty-field branch of `LoginPage.LoginForm.HandleSubmit` and the rejection of `CreateReportDialog.ReportForm.Submit` are reachable in the model but not from those forms; an ill-formed e-mail is not modelled.
- AppRoutes.Route: its own contract states only the loading case. The per-path decisions are stated by `AppRoutes.LoginRedirectsWhenSignedIn`, `AppRoutes.HomeLeadsToOwnDashboard`, `AppRoutes.EachDashboardAdmitsOneRole`, `AppRoutes.NavigationSettles` and `AppRoutes.UndeclaredRoleLoops`.

## Findings

| source | as written | input that shows it | evidently intended | confidence | as-written member | corrected member |
|---|---|---|---|---|---|---|
| src/pages/SupervisorDashboard.tsx:163-165 | The priority select offers lower-case values ("alta", "media", "baja") and compares them with `report.priority`. The priority cards (lines 64-68) count the upper-case literals ("ALTA", ...). | One zone report with priority "ALTA". The "Alta Prioridad" card shows 1, and choosing "Alta prioridad" in the filter lists nothing. With a lower-case "alta", the filter lists the report and the card shows 0. | Each filter option picks the reports its card counts | not executed | SupervisorDashboard.PriorityFilterMissesCountedReport | SupervisorDashboard.FixedFilteredReports |
| src/pages/CitizenDashboard.tsx:190-221 | The status tab triggers have values "pendiente", "en_proceso" and "resuelto". The status tab contents are keyed "PENDIENTE", "EN_PROCESO" and "RESUELTO". | Selecting the "Pendientes" tab with any list of reports. No content has the value "pendiente", so the tab shows nothing: neither the list nor the empty-state card. | Each status trigger opens the list of its status | not executed | CitizenDashboard.StatusTriggersShowNothing | CitizenDashboard.FixedSelectedTabContent |
| src/App.tsx:63-76 | Home sends a user whose role is none of the three declared roles to "/login" (line 73). "/login" sends any signed-in user to "/" (line 63). | A stored session `{"role": "admin", ...}` restored at src/contexts/AuthContext.tsx:46-48: the browser alternates between "/" and "/login" and never shows a page. | Every session ends on a page; one with an undeclared role is shown the login page | not executed | AppRoutes.UndeclaredRoleLoops | AppRoutes.FixedNavigationSettles |
| src/pages/Login.tsx:27-31 | `handleSubmit` sets "Credenciales inválidas" after `login` resolves with false. `login` first raises the session's `isLoading` (src/contexts/AuthContext.tsx:54), and while it is up the shell renders only the spinner (src/App.tsx:48-57), which unmounts the login page. | Submitting "ciudadano@demo.com" with the password "x": after the delay a new, empty login form is shown with no error message. | A refused login keeps the form and shows "Credenciales inválidas" | not executed | LoginPage.RefusedLoginShowsBlankForm | LoginPage.LoginForm.HandleSubmit |
