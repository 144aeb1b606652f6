/** The shared domain model: users, reports, tasks and zones, with the closed value sets
    their fields are declared over. Reports and tasks keep their enumerated fields as the
    strings that travel on the wire, because the dashboards compare those strings with
    literals of both cases; the closed sets are the datatypes below, and `WellTypedReport`
    / `WellTypedTask` say that a record's strings are the declared ones. The source field
    `type` is called `kind` here (`type` is a keyword). */
module Domain {
  import opened Wrappers

  /** The three mutually exclusive roles of a user. */
  datatype Role = Ciudadano | Supervisor | Trabajador
  {
    function Literal(): string
    {
      match this
      case Ciudadano => "ciudadano"
      case Supervisor => "supervisor"
      case Trabajador => "trabajador"
    }
  }

  /** The problem types, shared by reports and tasks. */
  datatype ReportKind = Barrido | ResiduosSolidos | Maleza
  {
    function Literal(): string
    {
      match this
      case Barrido => "barrido"
      case ResiduosSolidos => "residuos_solidos"
      case Maleza => "maleza"
    }
  }

  datatype ReportStatus = Pendiente | EnProceso | Resuelto
  {
    function Literal(): string
    {
      match this
      case Pendiente => "pendiente"
      case EnProceso => "en_proceso"
      case Resuelto => "resuelto"
    }
  }

  datatype TaskStatus = Pendiente | EnProceso | Completada
  {
    function Literal(): string
    {
      match this
      case Pendiente => "pendiente"
      case EnProceso => "en_proceso"
      case Completada => "completada"
    }
  }

  /** The priorities, shared by reports and tasks. */
  datatype Priority = Baja | Media | Alta
  {
    function Literal(): string
    {
      match this
      case Baja => "baja"
      case Media => "media"
      case Alta => "alta"
    }
  }

  function ParseRole(s: string): (r: Option<Role>)
    ensures r.Some? ==> r.value.Literal() == s
    ensures forall v: Role :: v.Literal() == s ==> r == Some(v)
  {
    if s == "ciudadano" then Some(Ciudadano)
    else if s == "supervisor" then Some(Supervisor)
    else if s == "trabajador" then Some(Trabajador)
    else None
  }

  function ParseReportKind(s: string): (r: Option<ReportKind>)
    ensures r.Some? ==> r.value.Literal() == s
    ensures forall v: ReportKind :: v.Literal() == s ==> r == Some(v)
  {
    if s == "barrido" then Some(Barrido)
    else if s == "residuos_solidos" then Some(ResiduosSolidos)
    else if s == "maleza" then Some(Maleza)
    else None
  }

  function ParseReportStatus(s: string): (r: Option<ReportStatus>)
    ensures r.Some? ==> r.value.Literal() == s
    ensures forall v: ReportStatus :: v.Literal() == s ==> r == Some(v)
  {
    if s == "pendiente" then Some(ReportStatus.Pendiente)
    else if s == "en_proceso" then Some(ReportStatus.EnProceso)
    else if s == "resuelto" then Some(Resuelto)
    else None
  }

  function ParseTaskStatus(s: string): (r: Option<TaskStatus>)
    ensures r.Some? ==> r.value.Literal() == s
    ensures forall v: TaskStatus :: v.Literal() == s ==> r == Some(v)
  {
    if s == "pendiente" then Some(TaskStatus.Pendiente)
    else if s == "en_proceso" then Some(TaskStatus.EnProceso)
    else if s == "completada" then Some(Completada)
    else None
  }

  function ParsePriority(s: string): (r: Option<Priority>)
    ensures r.Some? ==> r.value.Literal() == s
    ensures forall v: Priority :: v.Literal() == s ==> r == Some(v)
  {
    if s == "baja" then Some(Baja)
    else if s == "media" then Some(Media)
    else if s == "alta" then Some(Alta)
    else None
  }

  datatype Location = Location(lat: real, lng: real, address: string)

  datatype User = User(
    id: string,
    email: string,
    name: string,
    role: string,
    phone: Option<string>,
    zone: Option<string>)

  /** A user record carries one of the declared role literals. A record restored from the
      browser's storage is not checked, so it may carry any string. */
  predicate WellTypedUser(u: User)
  {
    ParseRole(u.role).Some?
  }

  datatype Report = Report(
    id: string,
    citizenId: string,
    citizenName: string,
    citizenEmail: string,
    citizenPhone: Option<string>,
    kind: string,
    description: string,
    location: Location,
    photos: seq<string>,
    status: string,
    priority: string,
    zone: string,
    createdAt: string,
    updatedAt: string,
    assignedTo: Option<string>,
    assignedBy: Option<string>,
    assignedAt: Option<string>,
    completedAt: Option<string>,
    evidence: Option<seq<string>>)

  datatype Task = Task(
    id: string,
    reportId: string,
    workerId: string,
    workerName: string,
    supervisorId: string,
    supervisorName: string,
    title: string,
    description: string,
    kind: string,
    location: Location,
    status: string,
    priority: string,
    assignedAt: string,
    startedAt: Option<string>,
    completedAt: Option<string>,
    evidence: Option<seq<string>>,
    notes: Option<string>)

  datatype Point = Point(lat: real, lng: real)

  datatype Zone = Zone(
    id: string,
    name: string,
    supervisorId: string,
    supervisorName: string,
    boundaries: seq<Point>)

  /** The report's strings are the lower-case literals its declared type admits. */
  predicate WellTypedReport(r: Report)
  {
    ParseReportKind(r.kind).Some? && ParseReportStatus(r.status).Some? && ParsePriority(r.priority).Some?
  }

  /** The task's strings are the lower-case literals its declared type admits. */
  predicate WellTypedTask(t: Task)
  {
    ParseReportKind(t.kind).Some? && ParseTaskStatus(t.status).Some? && ParsePriority(t.priority).Some?
  }
}
