/** The notes store: the collection of notes, the loading flag and the error
    message, and the five actions that drive them. Each network action
    receives the outcome of its remote call as a parameter and runs as one
    sequential step. */
module NotesStore {
  import opened Wrappers
  import opened NoteList

  /** Shown when a failure carries no message. */
  const FallbackError: string := "An error occurred"

  /** The text recorded for a failure: its own message when that message is
      non-empty (truthy), otherwise the fallback. */
  function ErrorText(message: string): (text: string)
    ensures text != ""
    ensures message != "" ==> text == message
    ensures message == "" ==> text == FallbackError
  {
    if message != "" then message else FallbackError
  }

  class NotesStore {
    var notes: seq<Note>
    var loading: bool
    var error: Option<string>

    /** The module-level containers start empty, idle and without error. */
    constructor ()
      ensures notes == [] && !loading && error == None
    {
      notes := [];
      loading := false;
      error := None;
    }

    /** Records a failure: sets the error text and clears the loading flag. */
    method HandleError(message: string)
      modifies this
      ensures error == Some(ErrorText(message))
      ensures !loading
      ensures notes == old(notes)
    {
      error := Some(ErrorText(message));
      loading := false;
    }

    /** Replaces the whole collection with the fetched notes; a failure is
        recorded and swallowed. */
    method LoadNotes(fetched: Outcome<seq<Note>>)
      modifies this
      ensures !loading
      ensures fetched.Success? ==> notes == fetched.value && error == None
      ensures fetched.Failure? ==> notes == old(notes) && error == Some(ErrorText(fetched.message))
    {
      loading := true;
      error := None;
      match fetched {
        case Success(fetchedNotes) =>
          notes := fetchedNotes;
        case Failure(message) =>
          HandleError(message);
      }
      loading := false;
    }

    /** Puts the created note in front of the collection and returns it; a
        failure is recorded and re-raised. */
    method CreateNote(created: Outcome<Note>) returns (r: Result<Note>)
      modifies this
      ensures !loading
      ensures created.Success? ==>
        notes == Prepend(created.value, old(notes)) && error == None && r == Ok(created.value)
      ensures created.Failure? ==>
        notes == old(notes) && error == Some(ErrorText(created.message)) && r == Err(created.message)
    {
      loading := true;
      error := None;
      match created {
        case Success(newNote) =>
          notes := Prepend(newNote, notes);
          r := Ok(newNote);
        case Failure(message) =>
          HandleError(message);
          r := Err(message);
      }
      loading := false;
    }

    /** Replaces every note carrying `id` with the returned record and returns
        that record; a failure is recorded and re-raised. */
    method UpdateNote(id: NoteId, updated: Outcome<Note>) returns (r: Result<Note>)
      modifies this
      ensures !loading
      ensures updated.Success? ==>
        && |notes| == |old(notes)|
        && (forall i :: 0 <= i < |notes| ==>
              notes[i] == (if old(notes)[i].id == id then updated.value else old(notes)[i]))
        && error == None && r == Ok(updated.value)
      ensures updated.Failure? ==>
        notes == old(notes) && error == Some(ErrorText(updated.message)) && r == Err(updated.message)
    {
      loading := true;
      error := None;
      match updated {
        case Success(updatedNote) =>
          ReplaceByIdPointwise(notes, id, updatedNote);
          notes := ReplaceById(notes, id, updatedNote);
          r := Ok(updatedNote);
        case Failure(message) =>
          HandleError(message);
          r := Err(message);
      }
      loading := false;
    }

    /** Drops every note carrying `id`; a failure is recorded and re-raised.
        The acknowledgement body of a successful delete is not used. */
    method DeleteNote(id: NoteId, acknowledged: Outcome<()>) returns (r: Result<()>)
      modifies this
      ensures !loading
      ensures acknowledged.Success? ==>
        && notes == RemoveById(old(notes), id)
        && (forall n :: n in notes <==> n in old(notes) && n.id != id)
        && |notes| == |old(notes)| - CountId(old(notes), id)
        && IsSubsequence(notes, old(notes))
        && error == None && r == Ok(())
      ensures acknowledged.Failure? ==>
        && notes == old(notes) && error == Some(ErrorText(acknowledged.message))
        && r == Err(acknowledged.message)
    {
      loading := true;
      error := None;
      match acknowledged {
        case Success(_) =>
          RemoveByIdMembers(notes, id);
          RemoveByIdLength(notes, id);
          RemoveByIdKeepsOrder(notes, id);
          notes := RemoveById(notes, id);
          r := Ok(());
        case Failure(message) =>
          HandleError(message);
          r := Err(message);
      }
      loading := false;
    }

    /** Forgets the last error and touches nothing else. */
    method ClearError()
      modifies this`error
      ensures error == None
      ensures notes == old(notes) && loading == old(loading)
    {
      error := None;
    }
  }
}
