/** The worker's dashboard: the fixture tasks assigned to the signed-in worker, their status
    counters and tabs, and the "Iniciar" / "Completar" buttons. Starting a task changes no
    task; completing one only opens the evidence dialog for it. */
module WorkerDashboard {
  import opened Wrappers
  import opened Domain
  import opened Lists
  import opened Counters
  import opened MockData

  /** `task.workerId === user?.id`: with nobody signed in no task matches. */
  function AssignedTo(user: Option<User>): Task -> bool
  {
    (t: Task) => user.Some? && t.workerId == user.value.id
  }

  /** `workerTasks`: exactly the tasks assigned to the user, in their original order. */
  function WorkerTasks(tasks: seq<Task>, user: Option<User>): (r: seq<Task>)
    ensures forall x :: x in r <==> x in tasks && user.Some? && x.workerId == user.value.id
    ensures user.None? ==> r == []
    ensures SubseqOf(r, tasks)
  {
    if user.None? then
      FilterNone(tasks, AssignedTo(user));
      Filter(tasks, AssignedTo(user))
    else
      Filter(tasks, AssignedTo(user))
  }

  /** The page reads the fixture tasks. */
  function PageTasks(user: Option<User>): seq<Task>
  {
    WorkerTasks(MockTasks, user)
  }

  /** On the page the three counters always add up to the number of tasks shown, whoever is
      signed in, because the fixture tasks carry the declared statuses. */
  lemma PageCountersCoverTasks(user: Option<User>)
    ensures CountTaskStatuses(PageTasks(user)).Total() == |PageTasks(user)|
  {
    MockFixturesWellTyped();
  }

  /** A status tab lists exactly the worker's tasks with that status. */
  function StatusTab(workerTasks: seq<Task>, status: string): (r: seq<Task>)
    ensures forall x :: x in r <==> x in workerTasks && x.status == status
    ensures SubseqOf(r, workerTasks)
  {
    Filter(workerTasks, TaskStatusIs(status))
  }

  /** The counters and the status tabs agree. */
  lemma CountersMatchTabs(workerTasks: seq<Task>)
    ensures CountTaskStatuses(workerTasks).pendiente == |StatusTab(workerTasks, "pendiente")|
    ensures CountTaskStatuses(workerTasks).enProceso == |StatusTab(workerTasks, "en_proceso")|
    ensures CountTaskStatuses(workerTasks).completada == |StatusTab(workerTasks, "completada")|
  {
  }

  /** "Iniciar" is offered for a pending task. */
  predicate OffersStart(t: Task)
  {
    t.status == "pendiente"
  }

  /** "Completar" is offered for a task in progress. */
  predicate OffersComplete(t: Task)
  {
    t.status == "en_proceso"
  }

  /** No task is offered both buttons, and a well-typed task is offered neither exactly when
      it is completed. */
  lemma {:induction false} ButtonsFollowStatus(t: Task)
    ensures !(OffersStart(t) && OffersComplete(t))
    ensures WellTypedTask(t) ==> (t.status == "completada" <==> !OffersStart(t) && !OffersComplete(t))
  {
    if WellTypedTask(t) {
      var st := ParseTaskStatus(t.status).value;
      assert t.status == st.Literal();
    }
  }

  /** Inside a status tab the buttons are chosen by the tab's status; since the tab lists only
      tasks of that status, they are the buttons the task itself is offered. */
  lemma TabButtonsMatchTaskButtons(workerTasks: seq<Task>, status: string)
    ensures forall t :: t in StatusTab(workerTasks, status) ==>
              (status == "pendiente" <==> OffersStart(t)) && (status == "en_proceso" <==> OffersComplete(t))
  {
  }

  /** The page's own state: the task whose evidence dialog is open. */
  class WorkerPage {
    var selectedTask: Option<Task>

    constructor ()
      ensures selectedTask == None
    {
      selectedTask := None;
    }

    /** `handleStartTask` only shows a toast: it changes no state at all. */
    method StartTask(taskId: string)
      ensures selectedTask == old(selectedTask)
    {
    }

    /** `handleCompleteTask` opens the evidence dialog for the task. */
    method CompleteTask(task: Task)
      modifies this
      ensures selectedTask == Some(task)
    {
      selectedTask := Some(task);
    }

    /** `onTaskCompleted` closes the dialog. */
    method TaskCompleted()
      modifies this
      ensures selectedTask == None
    {
      selectedTask := None;
    }
  }
}
