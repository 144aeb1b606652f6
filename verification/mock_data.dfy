/** The demo fixtures: two zones, three reports and the two tasks created from them, and the
    coupling between a task and the report it was created from. */
module MockData {
  import opened Wrappers
  import opened Domain
  import opened Lists

  const MockZones: seq<Zone> := [
    Zone("1", "Zona Centro", "2", "Carlos Rodríguez",
      [Point(4.6097, -74.0817), Point(4.6120, -74.0790), Point(4.6100, -74.0750), Point(4.6070, -74.0780)]),
    Zone("2", "Zona Norte", "4", "Ana López",
      [Point(4.6150, -74.0850), Point(4.6180, -74.0820), Point(4.6160, -74.0780), Point(4.6130, -74.0810)])
  ]

  const ReportPending: Report := Report(
    "1", "1", "María García", "ciudadano@demo.com", Some("+57 300 123 4567"),
    "residuos_solidos",
    "Acumulación de basura en la esquina de la Calle 15 con Carrera 10. Hay varios bolsas rotas y desperdicios esparcidos.",
    Location(4.6097, -74.0817, "Calle 15 #10-25, Centro, Bogotá"),
    ["/api/placeholder/400/300?text=Basura+Acumulada"],
    "pendiente", "alta", "Zona Centro", "2024-01-15T10:30:00Z", "2024-01-15T10:30:00Z",
    None, None, None, None, None)

  const ReportInProgress: Report := Report(
    "2", "1", "María García", "ciudadano@demo.com", None,
    "barrido",
    "La calle está muy sucia con hojas y papeles. Necesita barrido urgente.",
    Location(4.6110, -74.0800, "Carrera 12 #18-30, Centro, Bogotá"),
    ["/api/placeholder/400/300?text=Calle+Sucia"],
    "en_proceso", "media", "Zona Centro", "2024-01-14T14:20:00Z", "2024-01-15T08:15:00Z",
    Some("3"), Some("2"), Some("2024-01-15T08:15:00Z"), None, None)

  const ReportResolved: Report := Report(
    "3", "5", "Pedro Silva", "pedro.silva@email.com", None,
    "maleza",
    "Maleza creciendo en el separador central de la avenida. Está obstruyendo la visibilidad.",
    Location(4.6085, -74.0790, "Avenida 19 #14-50, Centro, Bogotá"),
    ["/api/placeholder/400/300?text=Maleza+Crecida"],
    "resuelto", "baja", "Zona Centro", "2024-01-10T09:45:00Z", "2024-01-12T16:30:00Z",
    Some("3"), Some("2"), Some("2024-01-10T11:00:00Z"), Some("2024-01-12T16:30:00Z"),
    Some(["/api/placeholder/400/300?text=Maleza+Cortada"]))

  const MockReports: seq<Report> := [ReportPending, ReportInProgress, ReportResolved]

  const TaskInProgress: Task := Task(
    "1", "2", "3", "Juan Pérez", "2", "Carlos Rodríguez",
    "Barrido Carrera 12",
    "La calle está muy sucia con hojas y papeles. Necesita barrido urgente.",
    "barrido",
    Location(4.6110, -74.0800, "Carrera 12 #18-30, Centro, Bogotá"),
    "en_proceso", "media", "2024-01-15T08:15:00Z", Some("2024-01-15T09:00:00Z"),
    None, None, None)

  const TaskCompleted: Task := Task(
    "2", "3", "3", "Juan Pérez", "2", "Carlos Rodríguez",
    "Corte de Maleza Avenida 19",
    "Maleza creciendo en el separador central de la avenida. Está obstruyendo la visibilidad.",
    "maleza",
    Location(4.6085, -74.0790, "Avenida 19 #14-50, Centro, Bogotá"),
    "completada", "baja", "2024-01-10T11:00:00Z", Some("2024-01-10T14:30:00Z"),
    Some("2024-01-12T16:30:00Z"), Some(["/api/placeholder/400/300?text=Maleza+Cortada"]),
    Some("Maleza cortada completamente. Área despejada."))

  const MockTasks: seq<Task> := [TaskInProgress, TaskCompleted]

  function ReportIdIs(id: string): Report -> bool
  {
    (r: Report) => r.id == id
  }

  /** The first report with the given id, if any. */
  function FindReport(reports: seq<Report>, id: string): (r: Option<Report>)
    ensures r.Some? ==> r.value in reports && r.value.id == id
    ensures r.None? <==> forall x :: x in reports ==> x.id != id
  {
    Find(reports, ReportIdIs(id))
  }

  /** The report's assignment fields are all set or all absent. */
  predicate AssignmentConsistent(r: Report)
  {
    r.assignedTo.Some? == r.assignedBy.Some? && r.assignedBy.Some? == r.assignedAt.Some?
  }

  /** What a task copies from the report it was created from: the assignment (worker,
      supervisor, time) and the problem (type, description, location). */
  predicate CreatedFrom(t: Task, r: Report)
  {
    r.id == t.reportId
    && r.assignedTo == Some(t.workerId) && r.assignedBy == Some(t.supervisorId)
    && r.assignedAt == Some(t.assignedAt)
    && r.kind == t.kind && r.description == t.description && r.location == t.location
  }

  lemma ZoneBoundariesArePolygons()
    ensures forall z :: z in MockZones ==> |z.boundaries| >= 3
  {
  }

  lemma MockFixturesWellTyped()
    ensures forall r :: r in MockReports ==> WellTypedReport(r)
    ensures forall t :: t in MockTasks ==> WellTypedTask(t)
  {
  }

  lemma ReportIdsDistinct()
    ensures forall i, j :: 0 <= i < j < |MockReports| ==> MockReports[i].id != MockReports[j].id
  {
  }

  /** Assignment fields come together, and the pending report has none of them. */
  lemma AssignmentFieldsTogether()
    ensures forall r :: r in MockReports ==> AssignmentConsistent(r)
    ensures forall r :: r in MockReports && r.status == "pendiente" ==>
              r.assignedTo.None? && r.assignedBy.None? && r.assignedAt.None?
  {
  }

  /** A resolved report carries its completion time and at least one evidence photo. */
  lemma ResolvedReportsHaveEvidence()
    ensures forall r :: r in MockReports && r.status == "resuelto" ==>
              r.completedAt.Some? && r.evidence.Some? && |r.evidence.value| >= 1
  {
  }

  /** Every task was created from an existing report whose assignment and problem it copies. */
  lemma TasksMatchTheirReports()
    ensures forall t :: t in MockTasks ==>
              FindReport(MockReports, t.reportId).Some? && CreatedFrom(t, FindReport(MockReports, t.reportId).value)
  {
    assert FindReport(MockReports, TaskInProgress.reportId) == Some(ReportInProgress);
    assert FindReport(MockReports, TaskCompleted.reportId) == Some(ReportResolved);
  }

  /** A report is resolved exactly when a completed task was created from it, and such a task
      carries the report's evidence and completion time. */
  lemma ResolvedIffCompletedTask()
    ensures forall r :: r in MockReports ==>
              (r.status == "resuelto" <==> exists t :: t in MockTasks && t.reportId == r.id && t.status == "completada")
    ensures forall t, r :: t in MockTasks && r in MockReports && t.reportId == r.id && t.status == "completada" ==>
              t.completedAt.Some? && t.evidence.Some? && |t.evidence.value| >= 1
              && r.evidence == t.evidence && r.completedAt == t.completedAt
  {
    assert TaskCompleted in MockTasks;
  }

  /** A task in progress has been started, and its report is in progress too. */
  lemma InProgressTasksStarted()
    ensures forall t, r :: t in MockTasks && r in MockReports && t.reportId == r.id && t.status == "en_proceso" ==>
              t.startedAt.Some? && r.status == "en_proceso"
  {
  }
}
