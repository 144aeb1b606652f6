/** The supervisor's dashboard: the reports of the supervisor's zone and the tasks they
    supervise, fetched once the user's zone and id are known; a priority filter over the
    zone's reports; counters over the unfiltered zone reports; the "Asignar" guard. */
module SupervisorDashboard {
  import opened Wrappers
  import opened Domain
  import opened Lists
  import opened Counters

  function ZoneIs(zone: string): Report -> bool
  {
    (r: Report) => r.zone == zone
  }

  function SupervisorIs(id: string): Task -> bool
  {
    (t: Task) => t.supervisorId == id
  }

  /** The fetched reports of one zone, in their original order. */
  function ZoneReports(all: seq<Report>, zone: string): (r: seq<Report>)
    ensures forall x :: x in r <==> x in all && x.zone == zone
    ensures forall x :: multiset(r)[x] == if x.zone == zone then multiset(all)[x] else 0
    ensures SubseqOf(r, all)
  {
    Filter(all, ZoneIs(zone))
  }

  /** The fetched tasks whose supervisor is the given user, in their original order. */
  function SupervisedTasks(all: seq<Task>, supervisorId: string): (r: seq<Task>)
    ensures forall x :: x in r <==> x in all && x.supervisorId == supervisorId
    ensures forall x :: multiset(r)[x] == if x.supervisorId == supervisorId then multiset(all)[x] else 0
    ensures SubseqOf(r, all)
  {
    Filter(all, SupervisorIs(supervisorId))
  }

  /** `user?.zone && user?.id`: fetching needs a signed-in user with a non-empty zone and id. */
  predicate ShouldFetch(user: Option<User>)
  {
    user.Some? && user.value.zone.Some? && user.value.zone.value != "" && user.value.id != ""
  }

  function PriorityFilter(filterPriority: string): Report -> bool
  {
    (r: Report) => filterPriority == "todas" || r.priority == filterPriority
  }

  /** `filteredReports`: all zone reports under "todas", otherwise those whose priority equals
      the selected value; always a subsequence of the zone reports. */
  function FilteredReports(zoneReports: seq<Report>, filterPriority: string): (r: seq<Report>)
    ensures filterPriority == "todas" ==> r == zoneReports
    ensures forall x :: x in r <==> x in zoneReports && (filterPriority == "todas" || x.priority == filterPriority)
    ensures SubseqOf(r, zoneReports)
  {
    if filterPriority == "todas" then
      FilterAll(zoneReports, PriorityFilter(filterPriority));
      Filter(zoneReports, PriorityFilter(filterPriority))
    else
      Filter(zoneReports, PriorityFilter(filterPriority))
  }

  /** The "Asignar" button is offered exactly for a report whose status is "PENDIENTE". */
  predicate OffersAssign(r: Report)
  {
    r.status == "PENDIENTE"
  }

  /** A report carrying a declared (lower-case) status is never offered "Asignar". */
  lemma DeclaredReportsNeverAssignable(r: Report)
    requires WellTypedReport(r)
    ensures !OffersAssign(r)
  {
    DeclaredIsNotUpper(r);
  }

  /** The dashboard's state: what was fetched and the selected priority filter. */
  class Dashboard {
    var zoneReports: seq<Report>
    var zoneTasks: seq<Task>
    var filterPriority: string

    constructor ()
      ensures zoneReports == [] && zoneTasks == [] && filterPriority == "todas"
    {
      zoneReports, zoneTasks, filterPriority := [], [], "todas";
    }

    /** The fetch effect. Reports are stored as soon as they arrive; a rejected report call
        stops before the tasks are requested; a rejected task call keeps the old tasks. Either
        rejection is reported through `failed` (the error toast). */
    method Load(user: Option<User>, reportsCall: Call<seq<Report>>, tasksCall: Call<seq<Task>>) returns (failed: bool)
      modifies this
      ensures filterPriority == old(filterPriority)
      ensures !ShouldFetch(user) ==> !failed && zoneReports == old(zoneReports) && zoneTasks == old(zoneTasks)
      ensures ShouldFetch(user) && reportsCall.Rejected? ==>
                failed && zoneReports == old(zoneReports) && zoneTasks == old(zoneTasks)
      ensures ShouldFetch(user) && reportsCall.Resolved? ==>
                zoneReports == ZoneReports(reportsCall.value, user.value.zone.value)
                && failed == tasksCall.Rejected?
                && zoneTasks == (if tasksCall.Resolved? then SupervisedTasks(tasksCall.value, user.value.id) else old(zoneTasks))
    {
      failed := false;
      if ShouldFetch(user) {
        var u := user.value;
        match reportsCall {
          case Rejected =>
            failed := true;
          case Resolved(all) =>
            zoneReports := ZoneReports(all, u.zone.value);
            match tasksCall {
              case Rejected =>
                failed := true;
              case Resolved(tasks) =>
                zoneTasks := SupervisedTasks(tasks, u.id);
            }
        }
      }
    }

    /** Choosing a priority changes only the filter, so the counters stay as they were. */
    method SetFilterPriority(value: string)
      modifies this
      ensures filterPriority == value
      ensures zoneReports == old(zoneReports) && zoneTasks == old(zoneTasks)
      ensures CountReportStatuses(zoneReports) == old(CountReportStatuses(zoneReports))
      ensures CountReportPriorities(zoneReports) == old(CountReportPriorities(zoneReports))
    {
      filterPriority := value;
    }

    /** `filteredReports`: the zone reports listed under the current filter, compared with
        `report.priority` exactly as the page does. */
    function Visible(): (r: seq<Report>)
      reads this
      ensures SubseqOf(r, zoneReports)
      ensures filterPriority == "todas" ==> r == zoneReports
      ensures filterPriority != "todas" ==>
                forall x :: x in r <==> x in zoneReports && x.priority == filterPriority
    {
      FilteredReports(zoneReports, filterPriority)
    }
  }

  // The priority filter against the priority counters.

  /** As written: a report with priority "ALTA" is counted on the "Alta Prioridad" card, yet the
      "alta" filter option hides it; the select's lower-case values and the counters' upper-case
      literals never pick the same report. */
  lemma PriorityFilterMissesCountedReport(r: Report)
    requires r.priority == "ALTA"
    ensures CountReportPriorities([r]).alta == 1
    ensures FilteredReports([r], "alta") == []
  {
    assert [r][1..] == [];
  }

  /** The upper-case literal each select value was evidently meant to pick. */
  function SelectedPriority(filterPriority: string): string
  {
    if filterPriority == "alta" then "ALTA"
    else if filterPriority == "media" then "MEDIA"
    else if filterPriority == "baja" then "BAJA"
    else filterPriority
  }

  /** The filter with each option mapped to the literal the counters use: "todas" still keeps
      every zone report, and each priority option shows as many reports as its counter says. */
  function FixedFilteredReports(zoneReports: seq<Report>, filterPriority: string): (r: seq<Report>)
    ensures filterPriority == "todas" ==> r == zoneReports
    ensures SubseqOf(r, zoneReports)
    ensures filterPriority == "alta" ==> |r| == CountReportPriorities(zoneReports).alta
    ensures filterPriority == "media" ==> |r| == CountReportPriorities(zoneReports).media
    ensures filterPriority == "baja" ==> |r| == CountReportPriorities(zoneReports).baja
  {
    var selected := SelectedPriority(filterPriority);
    if selected in UpperPriorities then
      FilterSamePredicate(zoneReports, PriorityFilter(selected), ReportPriorityIs(selected));
      FilteredReports(zoneReports, selected)
    else
      FilteredReports(zoneReports, selected)
  }
}
