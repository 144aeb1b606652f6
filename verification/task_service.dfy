/** The task endpoints, with the same shape as the report endpoints: each operation is the
    request it issues together with the value it returns for a given response body. */
module TaskService {
  import opened Wrappers
  import opened Domain
  import opened Wire
  import ReportService

  const TasksPath: string := "/tareas"
  const TaskPrefix: string := "/tarea"

  /** `/tarea/${id}`, the path of one task. */
  function TaskPath(id: string): (p: string)
    ensures |p| == |TaskPrefix| + 1 + |id|
    ensures p[..|TaskPrefix|] == TaskPrefix && p[|TaskPrefix|] == '/' && p[|TaskPrefix| + 1..] == id
  {
    TaskPrefix + "/" + id
  }

  /** Different ids name different tasks, no task path is the list or create path, and no task
      path is a report path. */
  lemma TaskPathsDistinct(a: string, b: string)
    ensures TaskPath(a) == TaskPath(b) ==> a == b
    ensures TaskPath(a) != TasksPath && TaskPath(a) != TaskPrefix
    ensures TaskPath(a) != ReportService.ReportPath(b)
  {
    PrefixedPathsInjective(TaskPrefix + "/", a, b);
    assert TaskPath(a)[6] == '/' && TasksPath[6] == 's';
    assert TaskPath(a)[1] == 't' && ReportService.ReportPath(b)[1] == 'r';
  }

  /** `getTasks`: GET /tareas; the result is always a list, and it is one of the arrays the body
      offers (under `tareas`, under `data`, the body itself) or empty. */
  function GetTasks(response: Json): (r: (Request, seq<Json>))
    ensures r.0 == Request(Get, TasksPath, None)
    ensures r.1 == [] || Prop(response, "tareas") == Arr(r.1) || Prop(response, "data") == Arr(r.1)
            || response == Arr(r.1)
    ensures Prop(response, "tareas").Arr? ==> r.1 == Prop(response, "tareas").items
    ensures response.Arr? ==> r.1 == response.items
    ensures r.1 == UnwrapList(response, "tareas")
  {
    (Request(Get, TasksPath, None), UnwrapList(response, "tareas"))
  }

  /** `createTask`: POST /tarea with the draft; the result is the body's `tarea`, else its
      `data`, else the body, and is truthy exactly when the body is. */
  function CreateTask(body: Json, response: Json): (r: (Request, Json))
    ensures r.0 == Request(Post, TaskPrefix, Some(body))
    ensures r.1 == Prop(response, "tarea") || r.1 == Prop(response, "data") || r.1 == response
    ensures Truthy(r.1) <==> Truthy(response)
    ensures r.1 == UnwrapItem(response, "tarea")
  {
    (Request(Post, TaskPrefix, Some(body)), UnwrapItem(response, "tarea"))
  }

  /** `updateTask`: PUT /tarea/{id} with the changes; the result is picked from the body exactly
      as `createTask` picks it. */
  function UpdateTask(id: string, body: Json, response: Json): (r: (Request, Json))
    ensures r.0 == Request(Put, TaskPath(id), Some(body))
    ensures r.1 == CreateTask(body, response).1
  {
    (Request(Put, TaskPath(id), Some(body)), UnwrapItem(response, "tarea"))
  }

  /** `deleteTask`: DELETE /tarea/{id}; nothing is returned. */
  function DeleteTask(id: string): (r: Request)
    ensures r.verb == Delete && r.body.None?
    ensures r.path == UpdateTask(id, Null, Null).0.path
  {
    Request(Delete, TaskPath(id), None)
  }

  /** A list wrapped the way the report endpoint wraps it (under `reportes`) is not found by
      the task rule unless it is also under `data`: the two endpoints read different keys. */
  lemma TaskRuleIgnoresReportKey(items: seq<Json>)
    requires items != []
    ensures GetTasks(Obj(map["reportes" := Arr(items)])).1 == []
    ensures ReportService.GetReports(Obj(map["reportes" := Arr(items)])).1 == items
  {
  }
}
