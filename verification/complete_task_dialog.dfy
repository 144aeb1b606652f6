/** The dialog in which a worker completes a task: a list of evidence photos that grows by
    appending and shrinks by removing one position, free-text notes, and a submit that
    requires at least one photo and then clears the form. */
module CompleteTaskDialog {
  import opened Lists

  /** The gate of `handleSubmit`: only the number of photos matters, never the notes. */
  predicate EvidenceAccepted(evidencePhotos: seq<string>)
  {
    |evidencePhotos| > 0
  }

  class EvidenceForm {
    var isLoading: bool
    var notes: string
    var evidencePhotos: seq<string>

    constructor ()
      ensures !isLoading && notes == "" && evidencePhotos == []
    {
      isLoading, notes, evidencePhotos := false, "", [];
    }

    /** The submit button is enabled when nothing is in flight and there is evidence. */
    predicate SubmitEnabled()
      reads this
    {
      !isLoading && EvidenceAccepted(evidencePhotos)
    }

    /** `handleAddPhoto`: the captured photo's URL (fresh on every call) goes at the end. */
    method AddPhoto(url: string)
      modifies this
      ensures evidencePhotos == old(evidencePhotos) + [url]
      ensures |evidencePhotos| == |old(evidencePhotos)| + 1
      ensures evidencePhotos[..|old(evidencePhotos)|] == old(evidencePhotos)
      ensures notes == old(notes) && isLoading == old(isLoading)
    {
      evidencePhotos := evidencePhotos + [url];
    }

    /** `handleRemovePhoto`: the photo at `index` is dropped and the others keep their order;
        an index outside the list removes nothing. */
    method RemovePhoto(index: int)
      modifies this
      ensures evidencePhotos == RemoveIndex(old(evidencePhotos), index)
      ensures 0 <= index < |old(evidencePhotos)| ==>
                evidencePhotos == old(evidencePhotos)[..index] + old(evidencePhotos)[index + 1..]
      ensures notes == old(notes) && isLoading == old(isLoading)
    {
      evidencePhotos := RemoveIndex(evidencePhotos, index);
      assert 0 <= index < |old(evidencePhotos)| ==>
               evidencePhotos == old(evidencePhotos)[..index] + old(evidencePhotos)[index + 1..];
    }

    /** The notes text area. */
    method SetNotes(value: string)
      modifies this
      ensures notes == value
      ensures evidencePhotos == old(evidencePhotos) && isLoading == old(isLoading)
    {
      notes := value;
    }

    /** `handleSubmit`, the simulated delay taken as done. Without evidence nothing changes and
        `onCompleted` is not called; otherwise the notes and photos are cleared, loading ends,
        and `completed` reports the call to `onCompleted`. Whatever the button allows is
        accepted. */
    method Submit() returns (completed: bool)
      modifies this
      ensures completed <==> EvidenceAccepted(old(evidencePhotos))
      ensures old(SubmitEnabled()) ==> completed
      ensures !completed ==>
                isLoading == old(isLoading) && notes == old(notes) && evidencePhotos == old(evidencePhotos)
      ensures completed ==> !isLoading && notes == "" && evidencePhotos == []
    {
      if |evidencePhotos| == 0 {
        return false;
      }
      isLoading := true;
      notes := "";
      evidencePhotos := [];
      isLoading := false;
      completed := true;
    }
  }
}
