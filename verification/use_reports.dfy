/** The client-side report cache of the `useReports` hook: a list of reports, a loading flag
    and an error message, replaced on fetch, appended on create, merged by id on update and
    filtered by id on delete. Each service call is given by its outcome. */
module UseReports {
  import opened Wrappers
  import opened Domain
  import opened Lists

  /** What the operations return to their caller: a value, or a thrown error message. */
  datatype Outcome<+T> = Returned(value: T) | Thrown(message: string)

  const FetchError: string := "Error al cargar reportes"
  const CreateError: string := "Error al crear reporte"
  const UpdateError: string := "Error al actualizar reporte"
  const DeleteError: string := "Error al eliminar reporte"

  /** The fields of a report the server sent back after an update; absent fields are None. */
  datatype ReportPatch = ReportPatch(
    id: Option<string>,
    citizenId: Option<string>,
    citizenName: Option<string>,
    citizenEmail: Option<string>,
    citizenPhone: Option<string>,
    kind: Option<string>,
    description: Option<string>,
    location: Option<Location>,
    photos: Option<seq<string>>,
    status: Option<string>,
    priority: Option<string>,
    zone: Option<string>,
    createdAt: Option<string>,
    updatedAt: Option<string>,
    assignedTo: Option<string>,
    assignedBy: Option<string>,
    assignedAt: Option<string>,
    completedAt: Option<string>,
    evidence: Option<seq<string>>)

  const EmptyPatch: ReportPatch := ReportPatch(None, None, None, None, None, None, None, None, None, None,
                                               None, None, None, None, None, None, None, None, None)

  function Pick<T>(patched: Option<T>, current: T): T
  {
    if patched.Some? then patched.value else current
  }

  function PickOptional<T>(patched: Option<T>, current: Option<T>): Option<T>
  {
    if patched.Some? then patched else current
  }

  /** `{ ...report, ...updated }`: every field the patch carries wins, the others stay. */
  function Merge(r: Report, p: ReportPatch): Report
  {
    Report(
      Pick(p.id, r.id), Pick(p.citizenId, r.citizenId), Pick(p.citizenName, r.citizenName),
      Pick(p.citizenEmail, r.citizenEmail), PickOptional(p.citizenPhone, r.citizenPhone),
      Pick(p.kind, r.kind), Pick(p.description, r.description), Pick(p.location, r.location),
      Pick(p.photos, r.photos), Pick(p.status, r.status), Pick(p.priority, r.priority),
      Pick(p.zone, r.zone), Pick(p.createdAt, r.createdAt), Pick(p.updatedAt, r.updatedAt),
      PickOptional(p.assignedTo, r.assignedTo), PickOptional(p.assignedBy, r.assignedBy),
      PickOptional(p.assignedAt, r.assignedAt), PickOptional(p.completedAt, r.completedAt),
      PickOptional(p.evidence, r.evidence))
  }

  /** Merging nothing changes nothing, and merging the same patch twice is merging it once. */
  lemma MergeLaws(r: Report, p: ReportPatch)
    ensures Merge(r, EmptyPatch) == r
    ensures Merge(Merge(r, p), p) == Merge(r, p)
  {
  }

  /** `prev.map(report => report.id === id ? { ...report, ...updated } : report)`. */
  function UpdateMatching(reports: seq<Report>, id: string, p: ReportPatch): (r: seq<Report>)
    ensures |r| == |reports|
    ensures forall i :: 0 <= i < |r| && reports[i].id != id ==> r[i] == reports[i]
    ensures forall i :: 0 <= i < |r| && reports[i].id == id ==> r[i] == Merge(reports[i], p)
  {
    if reports == [] then []
    else
      var head := if reports[0].id == id then Merge(reports[0], p) else reports[0];
      [head] + UpdateMatching(reports[1..], id, p)
  }

  /** Updating twice with the same patch is updating once, and an empty patch changes no entry. */
  lemma {:induction false} UpdateMatchingLaws(reports: seq<Report>, id: string, p: ReportPatch)
    ensures UpdateMatching(UpdateMatching(reports, id, p), id, p) == UpdateMatching(reports, id, p)
    ensures UpdateMatching(reports, id, EmptyPatch) == reports
  {
    var once := UpdateMatching(reports, id, p);
    var twice := UpdateMatching(once, id, p);
    forall i | 0 <= i < |reports|
      ensures twice[i] == once[i]
    {
      MergeLaws(reports[i], p);
    }
    var none := UpdateMatching(reports, id, EmptyPatch);
    forall i | 0 <= i < |reports|
      ensures none[i] == reports[i]
    {
      MergeLaws(reports[i], EmptyPatch);
    }
  }

  function IdIsNot(id: string): Report -> bool
  {
    (r: Report) => r.id != id
  }

  /** `prev.filter(report => report.id !== id)`: exactly the entries with another id, in order. */
  function RemoveById(reports: seq<Report>, id: string): (r: seq<Report>)
    ensures forall x :: x in r <==> x in reports && x.id != id
    ensures forall x :: multiset(r)[x] == if x.id != id then multiset(reports)[x] else 0
    ensures SubseqOf(r, reports)
  {
    Filter(reports, IdIsNot(id))
  }

  /** Deleting a report that was just appended under a fresh id gives back the list as it was. */
  lemma {:induction false} DeleteUndoesCreate(reports: seq<Report>, x: Report)
    requires forall y :: y in reports ==> y.id != x.id
    ensures RemoveById(reports + [x], x.id) == reports
  {
    FilterAppend(reports, [x], IdIsNot(x.id));
    FilterAll(reports, IdIsNot(x.id));
    assert Filter([x], IdIsNot(x.id)) == [];
  }

  class ReportCache {
    var reports: seq<Report>
    var loading: bool
    var error: Option<string>

    /** The hook's initial state, before the fetch it starts on mount. */
    constructor ()
      ensures reports == [] && loading && error.None?
    {
      reports, loading, error := [], true, None;
    }

    /** `fetchReports`, given the service outcome (None when the data is not an array). Array
        data replaces the list and clears the error; other data empties the list and clears
        the error; a failure empties the list and sets the message; loading ends either way. */
    method FetchReports(outcome: Call<Option<seq<Report>>>)
      modifies this
      ensures !loading
      ensures outcome.Resolved? && outcome.value.Some? ==> reports == outcome.value.value && error.None?
      ensures outcome.Resolved? && outcome.value.None? ==> reports == [] && error.None?
      ensures outcome.Rejected? ==> reports == [] && error == Some(FetchError)
    {
      loading := true;
      match outcome {
        case Resolved(data) =>
          reports := if data.Some? then data.value else [];
          error := None;
        case Rejected =>
          error := Some(FetchError);
          reports := [];
      }
      loading := false;
    }

    /** `createReport`, given the service outcome (None for a falsy result). A created report
        is appended once; a falsy result leaves the list; a failure leaves it and throws. */
    method CreateReport(outcome: Call<Option<Report>>) returns (r: Outcome<Option<Report>>)
      modifies this
      ensures outcome.Resolved? ==> r == Returned(outcome.value)
      ensures outcome.Resolved? && outcome.value.Some? ==> reports == old(reports) + [outcome.value.value]
      ensures outcome.Resolved? && outcome.value.None? ==> reports == old(reports)
      ensures outcome.Rejected? ==> r == Thrown(CreateError) && reports == old(reports)
      ensures loading == old(loading) && error == old(error)
    {
      match outcome {
        case Resolved(created) =>
          if created.Some? {
            reports := reports + [created.value];
          }
          r := Returned(created);
        case Rejected =>
          r := Thrown(CreateError);
      }
    }

    /** `updateReport`, given the service outcome (None for a falsy result). The returned fields
        are merged into every entry with that id; the length and the other entries stay. */
    method UpdateReport(id: string, outcome: Call<Option<ReportPatch>>) returns (r: Outcome<Option<ReportPatch>>)
      modifies this
      ensures outcome.Resolved? ==> r == Returned(outcome.value)
      ensures outcome.Resolved? && outcome.value.Some? ==> reports == UpdateMatching(old(reports), id, outcome.value.value)
      ensures outcome.Resolved? && outcome.value.None? ==> reports == old(reports)
      ensures outcome.Rejected? ==> r == Thrown(UpdateError) && reports == old(reports)
      ensures loading == old(loading) && error == old(error)
    {
      match outcome {
        case Resolved(updated) =>
          if updated.Some? {
            reports := UpdateMatching(reports, id, updated.value);
          }
          r := Returned(updated);
        case Rejected =>
          r := Thrown(UpdateError);
      }
    }

    /** `deleteReport`, given whether the service call succeeded. On success every entry with
        that id goes and the others keep their order; on failure the list stays and it throws. */
    method DeleteReport(id: string, succeeded: bool) returns (r: Outcome<()>)
      modifies this
      ensures succeeded ==> r == Returned(()) && reports == RemoveById(old(reports), id)
      ensures !succeeded ==> r == Thrown(DeleteError) && reports == old(reports)
      ensures loading == old(loading) && error == old(error)
    {
      if succeeded {
        reports := RemoveById(reports, id);
        r := Returned(());
      } else {
        r := Thrown(DeleteError);
      }
    }
  }
}
