/** The dialog in which a supervisor assigns a pending report to a worker: the fixed list of
    available workers, the lookup by id, the specialty badge, the label and colour mappings,
    and the form whose submit requires a selected worker and then resets. */
module AssignTaskDialog {
  import opened Wrappers
  import opened Domain
  import opened Lists

  datatype Worker = Worker(id: string, name: string, zone: string, specialties: seq<string>, currentTasks: nat, rating: real)

  const AvailableWorkers: seq<Worker> := [
    Worker("3", "Juan Pérez", "Zona Centro", ["barrido", "residuos_solidos"], 2, 4.8),
    Worker("6", "Carlos Mendoza", "Zona Centro", ["maleza", "barrido"], 1, 4.6),
    Worker("7", "Ana Torres", "Zona Centro", ["residuos_solidos", "maleza"], 3, 4.9)
  ]

  function WorkerId(w: Worker): string
  {
    w.id
  }

  predicate DistinctIds(workers: seq<Worker>)
  {
    forall i, j :: 0 <= i < j < |workers| ==> WorkerId(workers[i]) != WorkerId(workers[j])
  }

  function WorkerIdIs(id: string): Worker -> bool
  {
    (w: Worker) => w.id == id
  }

  /** `availableWorkers.find(w => w.id === id)`: the first worker with that id, if any. */
  function FindWorker(workers: seq<Worker>, id: string): (r: Option<Worker>)
    ensures r.None? <==> forall w :: w in workers ==> w.id != id
    ensures r.Some? ==> r.value in workers && r.value.id == id
  {
    Find(workers, WorkerIdIs(id))
  }

  lemma AvailableWorkerIdsDistinct()
    ensures DistinctIds(AvailableWorkers)
  {
  }

  /** Selecting a card and looking its id up gives back the same worker. */
  lemma LookupReturnsSelectedWorker(w: Worker)
    requires w in AvailableWorkers
    ensures FindWorker(AvailableWorkers, w.id) == Some(w)
  {
    AvailableWorkerIdsDistinct();
    FindByUniqueKey(AvailableWorkers, WorkerId, w, WorkerIdIs(w.id));
  }

  /** The "Especialista" badge: the report's type is among the worker's specialties. */
  predicate HasSpecialty(w: Worker, kind: string)
  {
    kind in w.specialties
  }

  /** Every declared report type has at least one specialist among the available workers. */
  lemma EveryKindHasSpecialist(kind: string)
    requires ParseReportKind(kind).Some?
    ensures exists w :: w in AvailableWorkers && HasSpecialty(w, kind)
  {
    var k := ParseReportKind(kind).value;
    assert kind == k.Literal();
    assert AvailableWorkers[0] in AvailableWorkers && AvailableWorkers[1] in AvailableWorkers;
  }

  /** `getTypeLabel`: the Spanish label of a declared type; any other string is shown as is. */
  function TypeLabel(kind: string): (text: string)
    ensures ParseReportKind(kind).None? ==> text == kind
    ensures ParseReportKind(kind).Some? ==> text != kind && text != ""
  {
    if kind == "residuos_solidos" then "Residuos Sólidos"
    else if kind == "maleza" then "Maleza"
    else if kind == "barrido" then "Barrido"
    else kind
  }

  /** The three declared types have three different labels. */
  lemma TypeLabelsDistinct(a: ReportKind, b: ReportKind)
    ensures TypeLabel(a.Literal()) == TypeLabel(b.Literal()) ==> a == b
  {
  }

  /** `getPriorityColor`: the badge variant of a priority. */
  function PriorityColor(p: Priority): (variant: string)
    ensures variant in {"destructive", "secondary", "outline"}
    ensures variant == "destructive" <==> p == Alta
  {
    match p
    case Alta => "destructive"
    case Media => "secondary"
    case Baja => "outline"
  }

  /** Different priorities get different badge variants. */
  lemma PriorityColorInjective(a: Priority, b: Priority)
    ensures PriorityColor(a) == PriorityColor(b) ==> a == b
  {
  }

  class AssignmentForm {
    var isLoading: bool
    var selectedWorker: string
    var priority: Priority
    var notes: string

    constructor ()
      ensures !isLoading && selectedWorker == "" && priority == Media && notes == ""
    {
      isLoading, selectedWorker, priority, notes := false, "", Media, "";
    }

    /** Clicking a worker's card selects its id. */
    method SelectWorker(id: string)
      modifies this
      ensures selectedWorker == id
      ensures priority == old(priority) && notes == old(notes) && isLoading == old(isLoading)
    {
      selectedWorker := id;
    }

    method SetPriority(p: Priority)
      modifies this
      ensures priority == p
      ensures selectedWorker == old(selectedWorker) && notes == old(notes) && isLoading == old(isLoading)
    {
      priority := p;
    }

    method SetNotes(value: string)
      modifies this
      ensures notes == value
      ensures selectedWorker == old(selectedWorker) && priority == old(priority) && isLoading == old(isLoading)
    {
      notes := value;
    }

    /** The submit button is disabled while loading or while no worker is selected. */
    predicate SubmitEnabled()
      reads this
    {
      !isLoading && selectedWorker != ""
    }

    /** `handleSubmit`, the simulated delay taken as done. Without a selected worker nothing
        changes and `onAssigned` is not called. Otherwise any selected id is accepted (specialty,
        current load and rating are not checked), `worker` is the lookup the confirmation names,
        the form returns to its initial values, and `accepted` reports the call to `onAssigned`. */
    method Submit() returns (accepted: bool, worker: Option<Worker>)
      modifies this
      ensures accepted <==> old(selectedWorker) != ""
      ensures old(SubmitEnabled()) ==> accepted
      ensures !accepted ==> selectedWorker == old(selectedWorker) && priority == old(priority)
                            && notes == old(notes) && isLoading == old(isLoading) && worker.None?
      ensures accepted ==> worker == FindWorker(AvailableWorkers, old(selectedWorker))
                           && selectedWorker == "" && priority == Media && notes == "" && !isLoading
    {
      if selectedWorker == "" {
        return false, None;
      }
      isLoading := true;
      worker := FindWorker(AvailableWorkers, selectedWorker);
      selectedWorker, priority, notes := "", Media, "";
      isLoading := false;
      accepted := true;
    }
  }
}
