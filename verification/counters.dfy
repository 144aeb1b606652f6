/** The per-status and per-priority counters the three dashboards show above their lists.
    The citizen and supervisor dashboards compare report fields with UPPER-case literals
    ('PENDIENTE', 'ALTA', ...); the worker dashboard compares task statuses with the
    lower-case literals of the declared task type. */
module Counters {
  import opened Wrappers
  import opened Domain
  import opened Lists

  function ReportStatusIs(lit: string): Report -> bool
  {
    (r: Report) => r.status == lit
  }

  function ReportPriorityIs(lit: string): Report -> bool
  {
    (r: Report) => r.priority == lit
  }

  function TaskStatusIs(lit: string): Task -> bool
  {
    (t: Task) => t.status == lit
  }

  const UpperReportStatuses: set<string> := {"PENDIENTE", "EN_PROCESO", "RESUELTO"}
  const UpperPriorities: set<string> := {"ALTA", "MEDIA", "BAJA"}

  datatype ReportStatusCounts = ReportStatusCounts(pendiente: nat, enProceso: nat, resuelto: nat)
  {
    function Total(): nat { pendiente + enProceso + resuelto }
  }

  datatype PriorityCounts = PriorityCounts(alta: nat, media: nat, baja: nat)
  {
    function Total(): nat { alta + media + baja }
  }

  datatype TaskStatusCounts = TaskStatusCounts(pendiente: nat, enProceso: nat, completada: nat)
  {
    function Total(): nat { pendiente + enProceso + completada }
  }

  /** A declared (lower-case) status or priority is never one of the upper-case literals. */
  lemma DeclaredIsNotUpper(r: Report)
    requires WellTypedReport(r)
    ensures r.status !in UpperReportStatuses && r.priority !in UpperPriorities
  {
    var st := ParseReportStatus(r.status).value;
    var pr := ParsePriority(r.priority).value;
    assert r.status == st.Literal() && r.priority == pr.Literal();
  }

  lemma {:induction false} UpperCountsOfWellTyped(reports: seq<Report>, lit: string)
    requires lit in UpperReportStatuses || lit in UpperPriorities
    ensures (forall r :: r in reports ==> WellTypedReport(r)) ==>
              Filter(reports, ReportStatusIs(lit)) == [] && Filter(reports, ReportPriorityIs(lit)) == []
  {
    if forall r :: r in reports ==> WellTypedReport(r) {
      forall r | r in reports
        ensures r.status != lit && r.priority != lit
      {
        DeclaredIsNotUpper(r);
      }
      FilterNone(reports, ReportStatusIs(lit));
      FilterNone(reports, ReportPriorityIs(lit));
    }
  }

  lemma {:induction false} UpperStatusesCovered(reports: seq<Report>)
    ensures (forall r :: r in reports ==> r.status in UpperReportStatuses) ==>
            |Filter(reports, ReportStatusIs("PENDIENTE"))| + |Filter(reports, ReportStatusIs("EN_PROCESO"))|
            + |Filter(reports, ReportStatusIs("RESUELTO"))| == |reports|
  {
    var p, e, s := ReportStatusIs("PENDIENTE"), ReportStatusIs("EN_PROCESO"), ReportStatusIs("RESUELTO");
    if forall r :: r in reports ==> r.status in UpperReportStatuses {
      assert forall x :: x in reports ==> p(x) || e(x) || s(x);
      CountsOfExclusive(reports, p, e, s);
    }
  }

  lemma {:induction false} UpperPrioritiesCovered(reports: seq<Report>)
    ensures (forall r :: r in reports ==> r.priority in UpperPriorities) ==>
            |Filter(reports, ReportPriorityIs("ALTA"))| + |Filter(reports, ReportPriorityIs("MEDIA"))|
            + |Filter(reports, ReportPriorityIs("BAJA"))| == |reports|
  {
    var a, m, b := ReportPriorityIs("ALTA"), ReportPriorityIs("MEDIA"), ReportPriorityIs("BAJA");
    if forall r :: r in reports ==> r.priority in UpperPriorities {
      assert forall x :: x in reports ==> a(x) || m(x) || b(x);
      CountsOfExclusive(reports, a, m, b);
    }
  }

  /** `statusCounts` of the citizen and supervisor dashboards. Every report is counted at most
      once; the counters cover the whole list when the statuses are the upper-case literals,
      and they are all zero when the reports carry the declared lower-case statuses. */
  function CountReportStatuses(reports: seq<Report>): (c: ReportStatusCounts)
    ensures c.Total() <= |reports|
    ensures (forall r :: r in reports ==> r.status in UpperReportStatuses) ==> c.Total() == |reports|
    ensures (forall r :: r in reports ==> WellTypedReport(r)) ==> c == ReportStatusCounts(0, 0, 0)
  {
    var p, e, s := ReportStatusIs("PENDIENTE"), ReportStatusIs("EN_PROCESO"), ReportStatusIs("RESUELTO");
    CountsOfExclusive(reports, p, e, s);
    UpperStatusesCovered(reports);
    UpperCountsOfWellTyped(reports, "PENDIENTE");
    UpperCountsOfWellTyped(reports, "EN_PROCESO");
    UpperCountsOfWellTyped(reports, "RESUELTO");
    ReportStatusCounts(|Filter(reports, p)|, |Filter(reports, e)|, |Filter(reports, s)|)
  }

  /** `priorityCounts` of the supervisor dashboard, with the same reading as the status counters. */
  function CountReportPriorities(reports: seq<Report>): (c: PriorityCounts)
    ensures c.Total() <= |reports|
    ensures (forall r :: r in reports ==> r.priority in UpperPriorities) ==> c.Total() == |reports|
    ensures (forall r :: r in reports ==> WellTypedReport(r)) ==> c == PriorityCounts(0, 0, 0)
  {
    var a, m, b := ReportPriorityIs("ALTA"), ReportPriorityIs("MEDIA"), ReportPriorityIs("BAJA");
    CountsOfExclusive(reports, a, m, b);
    UpperPrioritiesCovered(reports);
    UpperCountsOfWellTyped(reports, "ALTA");
    UpperCountsOfWellTyped(reports, "MEDIA");
    UpperCountsOfWellTyped(reports, "BAJA");
    PriorityCounts(|Filter(reports, a)|, |Filter(reports, m)|, |Filter(reports, b)|)
  }

  /** `statusCounts` of the worker dashboard: its literals are the declared task statuses, so
      for well-typed tasks the three counters add up to the number of tasks. */
  function CountTaskStatuses(tasks: seq<Task>): (c: TaskStatusCounts)
    ensures c.Total() <= |tasks|
    ensures (forall t :: t in tasks ==> WellTypedTask(t)) ==> c.Total() == |tasks|
  {
    var p, e, d := TaskStatusIs("pendiente"), TaskStatusIs("en_proceso"), TaskStatusIs("completada");
    CountsOfExclusive(tasks, p, e, d);
    TaskStatusCounts(|Filter(tasks, p)|, |Filter(tasks, e)|, |Filter(tasks, d)|)
  }
}
