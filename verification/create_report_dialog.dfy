/** The dialog in which a citizen files a report: the `formData` record (type, description,
    location, photos) edited field by field, and a submit that checks the required fields,
    clears the record and closes the dialog. */
module CreateReportDialog {
  import opened Wrappers
  import opened Domain
  import opened Lists

  /** The form's `formData` record; `kind` is the selected report type ("" while none is). */
  datatype ReportDraft = ReportDraft(kind: string, description: string, location: Location, photos: seq<string>)

  const EmptyDraft: ReportDraft := ReportDraft("", "", Location(0.0, 0.0, ""), [])

  /** The check of `handleSubmit`: type, description and address are required; photos are not. */
  predicate RequiredFieldsFilled(d: ReportDraft)
  {
    d.kind != "" && d.description != "" && d.location.address != ""
  }

  /** Photos never decide whether a draft may be submitted. */
  lemma PhotosNotRequired(d: ReportDraft, photos: seq<string>)
    ensures RequiredFieldsFilled(d.(photos := photos)) == RequiredFieldsFilled(d)
  {
  }

  /** A cleared form cannot be submitted again until it is filled in. */
  lemma EmptyDraftNotSubmittable()
    ensures !RequiredFieldsFilled(EmptyDraft)
  {
  }

  /** The types offered by the form are exactly the declared report types. */
  const OfferedKinds: seq<string> := ["residuos_solidos", "maleza", "barrido"]

  lemma OfferedKindsAreDeclared()
    ensures forall k :: k in OfferedKinds <==> ParseReportKind(k).Some?
  {
  }

  /** Choosing one of the offered types fills the type requirement. */
  lemma {:induction false} OfferedKindFillsType(d: ReportDraft, k: string)
    requires k in OfferedKinds
    ensures RequiredFieldsFilled(d.(kind := k)) <==> d.description != "" && d.location.address != ""
  {
    assert k != "";
  }

  class ReportForm {
    var isLoading: bool
    var isGettingLocation: bool
    var formData: ReportDraft

    constructor ()
      ensures !isLoading && !isGettingLocation && formData == EmptyDraft
    {
      isLoading, isGettingLocation, formData := false, false, EmptyDraft;
    }

    /** Selecting a type card. */
    method SetKind(kind: string)
      modifies this
      ensures formData == old(formData).(kind := kind)
      ensures isLoading == old(isLoading) && isGettingLocation == old(isGettingLocation)
    {
      formData := formData.(kind := kind);
    }

    /** The description text area. */
    method SetDescription(description: string)
      modifies this
      ensures formData == old(formData).(description := description)
      ensures isLoading == old(isLoading) && isGettingLocation == old(isGettingLocation)
    {
      formData := formData.(description := description);
    }

    /** The address input: only the address changes; the coordinates stay. */
    method SetAddress(address: string)
      modifies this
      ensures formData.location == Location(old(formData).location.lat, old(formData).location.lng, address)
      ensures formData.kind == old(formData).kind && formData.description == old(formData).description
      ensures formData.photos == old(formData).photos
      ensures isLoading == old(isLoading) && isGettingLocation == old(isGettingLocation)
    {
      formData := formData.(location := formData.location.(address := address));
    }

    /** `handleGetLocation`, with the position and its geocoded address as the outcome `found`
        (None when either lookup rejects). A found location replaces coordinates and address
        together; nothing else in the record changes; the lookup flag ends cleared. */
    method GetLocation(found: Option<Location>)
      modifies this
      ensures found.Some? ==> formData.location == found.value
      ensures found.None? ==> formData.location == old(formData).location
      ensures formData.kind == old(formData).kind && formData.description == old(formData).description
      ensures formData.photos == old(formData).photos
      ensures !isGettingLocation && isLoading == old(isLoading)
    {
      isGettingLocation := true;
      match found {
        case Some(loc) =>
          formData := formData.(location := Location(loc.lat, loc.lng, loc.address));
        case None =>
      }
      isGettingLocation := false;
    }

    /** `handlePhotoUpload`: the new URL (fresh on every call) goes at the end. */
    method AddPhoto(url: string)
      modifies this
      ensures formData == old(formData).(photos := old(formData).photos + [url])
      ensures isLoading == old(isLoading) && isGettingLocation == old(isGettingLocation)
    {
      formData := formData.(photos := formData.photos + [url]);
    }

    /** `handleRemovePhoto`: the photo at `index` is dropped, the other photos keep their order
        and the other fields stay. */
    method RemovePhoto(index: int)
      modifies this
      ensures formData == old(formData).(photos := RemoveIndex(old(formData).photos, index))
      ensures isLoading == old(isLoading) && isGettingLocation == old(isGettingLocation)
    {
      formData := formData.(photos := RemoveIndex(formData.photos, index));
    }

    /** The submit button is disabled only while a submission is in flight. */
    predicate SubmitEnabled()
      reads this
    {
      !isLoading
    }

    /** `handleSubmit`, the simulated delay taken as done. A draft missing a required field is
        left as it is and the dialog stays open; otherwise the record is cleared, loading ends,
        and `closed` reports the request to close the dialog. */
    method Submit() returns (closed: bool)
      modifies this
      ensures closed <==> RequiredFieldsFilled(old(formData))
      ensures !closed ==> formData == old(formData) && isLoading == old(isLoading)
      ensures closed ==> formData == EmptyDraft && !isLoading
      ensures isGettingLocation == old(isGettingLocation)
    {
      if !RequiredFieldsFilled(formData) {
        return false;
      }
      isLoading := true;
      formData := EmptyDraft;
      isLoading := false;
      closed := true;
    }
  }
}
