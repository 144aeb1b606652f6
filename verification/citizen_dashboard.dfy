/** The citizen's dashboard: the reports filed by the signed-in citizen, their counters and
    status tabs, and which of the loading, error and dashboard screens is shown. */
module CitizenDashboard {
  import opened Wrappers
  import opened Domain
  import opened Lists
  import opened Counters

  /** `String(user?.id)`: with nobody signed in the id reads as "undefined". */
  function UserIdText(user: Option<User>): (s: string)
    ensures user.Some? ==> s == user.value.id
    ensures user.None? ==> s == "undefined"
  {
    match user
    case Some(u) => u.id
    case None => "undefined"
  }

  function CitizenIs(id: string): Report -> bool
  {
    (r: Report) => r.citizenId == id
  }

  /** `userReports`: exactly the reports whose citizen id, as a string, is the user's id,
      in their original order. */
  function UserReports(reports: seq<Report>, user: Option<User>): (r: seq<Report>)
    ensures forall x :: x in r <==> x in reports && x.citizenId == UserIdText(user)
    ensures forall x :: multiset(r)[x] == if x.citizenId == UserIdText(user) then multiset(reports)[x] else 0
    ensures SubseqOf(r, reports)
  {
    Filter(reports, CitizenIs(UserIdText(user)))
  }

  /** The list a status tab renders: the user's reports with exactly that status. */
  function StatusTab(userReports: seq<Report>, status: string): (r: seq<Report>)
    ensures forall x :: x in r <==> x in userReports && x.status == status
    ensures SubseqOf(r, userReports)
  {
    Filter(userReports, ReportStatusIs(status))
  }

  /** The stat cards and the status tabs agree: each counter is the length of its tab. */
  lemma CountersMatchTabs(userReports: seq<Report>)
    ensures CountReportStatuses(userReports).pendiente == |StatusTab(userReports, "PENDIENTE")|
    ensures CountReportStatuses(userReports).enProceso == |StatusTab(userReports, "EN_PROCESO")|
    ensures CountReportStatuses(userReports).resuelto == |StatusTab(userReports, "RESUELTO")|
  {
  }

  /** Which screen the dashboard renders. */
  datatype Screen =
    | LoadingScreen
    | ErrorScreen(message: string)
    | DashboardScreen(reports: seq<Report>, counts: ReportStatusCounts)

  /** `if (error)`: a null or empty message is falsy. */
  predicate ErrorIsSet(error: Option<string>)
  {
    error.Some? && error.value != ""
  }

  /** Loading wins over an error, and an error wins over the dashboard; the dashboard shows
      only the user's own reports, and its counters never exceed their number. */
  function RenderScreen(loading: bool, error: Option<string>, reports: seq<Report>, user: Option<User>): (s: Screen)
    ensures loading ==> s == LoadingScreen
    ensures !loading && ErrorIsSet(error) ==> s == ErrorScreen(error.value)
    ensures s.DashboardScreen? <==> !loading && !ErrorIsSet(error)
    ensures s.DashboardScreen? ==> forall x :: x in s.reports ==> x in reports && x.citizenId == UserIdText(user)
    ensures s.DashboardScreen? ==> s.counts.Total() <= |s.reports|
    ensures s.DashboardScreen? ==> s.reports == UserReports(reports, user) && s.counts == CountReportStatuses(s.reports)
  {
    if loading then LoadingScreen
    else if ErrorIsSet(error) then ErrorScreen(error.value)
    else
      var mine := UserReports(reports, user);
      DashboardScreen(mine, CountReportStatuses(mine))
  }

  // Tab selection. A tab strip shows the content whose value equals the selected trigger's value.

  const TabTriggers: seq<string> := ["todos", "pendiente", "en_proceso", "resuelto"]
  const StatusTabValues: seq<string> := ["PENDIENTE", "EN_PROCESO", "RESUELTO"]

  /** The content shown for a selected trigger value, as the page is written: the status
      contents are keyed by the upper-case statuses, the triggers by lower-case words. */
  function SelectedTabContent(selected: string, userReports: seq<Report>): (r: Option<seq<Report>>)
    ensures selected == "todos" ==> r == Some(userReports)
    ensures r.Some? ==> selected == "todos" || selected in StatusTabValues
  {
    if selected == "todos" then Some(userReports)
    else if selected in StatusTabValues then Some(StatusTab(userReports, selected))
    else None
  }

  /** As written, selecting any of the three status triggers shows no content at all. */
  lemma StatusTriggersShowNothing(userReports: seq<Report>)
    ensures forall k :: 1 <= k < |TabTriggers| ==> SelectedTabContent(TabTriggers[k], userReports).None?
  {
    assert TabTriggers[1] !in StatusTabValues;
    assert TabTriggers[2] !in StatusTabValues;
    assert TabTriggers[3] !in StatusTabValues;
  }

  /** The status each trigger was evidently meant to open. */
  function TriggerStatus(trigger: string): Option<string>
  {
    if trigger == "pendiente" then Some("PENDIENTE")
    else if trigger == "en_proceso" then Some("EN_PROCESO")
    else if trigger == "resuelto" then Some("RESUELTO")
    else None
  }

  /** Tab selection with contents keyed by the trigger values: every trigger opens a list, and
      each status trigger opens a list as long as the counter on its stat card. */
  function FixedSelectedTabContent(selected: string, userReports: seq<Report>): (r: Option<seq<Report>>)
    ensures selected in TabTriggers ==> r.Some?
    ensures selected == "pendiente" ==> |r.value| == CountReportStatuses(userReports).pendiente
    ensures selected == "en_proceso" ==> |r.value| == CountReportStatuses(userReports).enProceso
    ensures selected == "resuelto" ==> |r.value| == CountReportStatuses(userReports).resuelto
  {
    if selected == "todos" then Some(userReports)
    else match TriggerStatus(selected)
      case Some(status) => Some(StatusTab(userReports, status))
      case None => None
  }
}
