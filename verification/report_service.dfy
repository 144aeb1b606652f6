/** The report endpoints. Each operation is the request it issues together with the value it
    returns for a given response body; the HTTP exchange itself is the `response` parameter. */
module ReportService {
  import opened Wrappers
  import opened Domain
  import opened Wire

  const ReportsPath: string := "/reportes"
  const ReportPrefix: string := "/reporte"

  /** `/reporte/${id}`, the path of one report. */
  function ReportPath(id: string): (p: string)
    ensures |p| == |ReportPrefix| + 1 + |id|
    ensures p[..|ReportPrefix|] == ReportPrefix && p[|ReportPrefix|] == '/' && p[|ReportPrefix| + 1..] == id
  {
    ReportPrefix + "/" + id
  }

  /** Different ids name different reports, and no report path is the list or create path. */
  lemma ReportPathsDistinct(a: string, b: string)
    ensures ReportPath(a) == ReportPath(b) ==> a == b
    ensures ReportPath(a) != ReportsPath && ReportPath(a) != ReportPrefix
  {
    PrefixedPathsInjective(ReportPrefix + "/", a, b);
    assert ReportPath(a)[8] == '/' && ReportsPath[8] == 's';
  }

  /** `getReports`: GET /reportes; the result is always a list, and it is one of the arrays the
      body offers (under `reportes`, under `data`, the body itself) or empty. */
  function GetReports(response: Json): (r: (Request, seq<Json>))
    ensures r.0 == Request(Get, ReportsPath, None)
    ensures r.1 == [] || Prop(response, "reportes") == Arr(r.1) || Prop(response, "data") == Arr(r.1)
            || response == Arr(r.1)
    ensures Prop(response, "reportes").Arr? ==> r.1 == Prop(response, "reportes").items
    ensures response.Arr? ==> r.1 == response.items
    ensures r.1 == UnwrapList(response, "reportes")
  {
    (Request(Get, ReportsPath, None), UnwrapList(response, "reportes"))
  }

  /** `createReport`: POST /reporte with the draft; the result is the body's `reporte`, else its
      `data`, else the body, and is truthy exactly when the body is. */
  function CreateReport(body: Json, response: Json): (r: (Request, Json))
    ensures r.0 == Request(Post, ReportPrefix, Some(body))
    ensures r.1 == Prop(response, "reporte") || r.1 == Prop(response, "data") || r.1 == response
    ensures Truthy(r.1) <==> Truthy(response)
    ensures r.1 == UnwrapItem(response, "reporte")
  {
    (Request(Post, ReportPrefix, Some(body)), UnwrapItem(response, "reporte"))
  }

  /** `updateReport`: PUT /reporte/{id} with the changes; the result is picked from the body
      exactly as `createReport` picks it. */
  function UpdateReport(id: string, body: Json, response: Json): (r: (Request, Json))
    ensures r.0 == Request(Put, ReportPath(id), Some(body))
    ensures r.1 == CreateReport(body, response).1
  {
    (Request(Put, ReportPath(id), Some(body)), UnwrapItem(response, "reporte"))
  }

  /** `deleteReport`: DELETE /reporte/{id}; nothing is returned. */
  function DeleteReport(id: string): (r: Request)
    ensures r.verb == Delete && r.body.None?
    ensures r.path == UpdateReport(id, Null, Null).0.path
  {
    Request(Delete, ReportPath(id), None)
  }
}
