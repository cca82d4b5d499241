/** The component's event handlers: each runs its local list logic and then
    dispatches actions into the reducer, one after another. The remote GraphQL
    calls are not modelled: a list response arrives as a parameter, and the
    outcome of a create, delete or update call is only logged by the source,
    so it has no effect on the state. */
module App {
  import opened Notes
  import opened Reducer

  /** What the remote list call delivered: the fetched items, or a failure
      (a network error or a response without the expected items). */
  datatype ListResponse = Listed(items: array<Note>) | ListFailed

  class Controller {
    /** The session tag, drawn once when the controller is built. */
    const clientId: string
    var state: State

    constructor (clientId: string)
      ensures this.clientId == clientId && state == InitialState
    {
      this.clientId := clientId;
      state := InitialState;
    }

    /** `dispatch`: the reducer applied to the current state. */
    method Dispatch(a: Action)
      modifies this
      ensures state == Reduce(old(state), a)
    {
      state := Reduce(state, a);
    }

    /** `fetchNotes` once the list call has answered: the items are sorted by
        name in place and become the list, or the failure sets the error flag. */
    method FetchNotes(response: ListResponse)
      modifies this, if response.Listed? then {response.items} else {}
      ensures response.Listed? ==> state.notes == response.items[..]
      ensures response.Listed? ==> SortedByName(state.notes)
      ensures response.Listed? ==> multiset(state.notes) == old(multiset(response.items[..]))
      ensures response.Listed? ==> !state.loading && state.error == old(state.error) && state.form == old(state.form)
      ensures response.ListFailed? ==> state == old(state).(error := true, loading := true)
    {
      match response
      case Listed(items) =>
        SortByName(items);
        Dispatch(SetNotes(items[..]));
      case ListFailed =>
        Dispatch(Error);
    }

    /** The subscription's `next` handler for one created note: a note this
        session created itself is ignored, any other is appended. */
    method OnCreateNotification(note: Note)
      modifies this
      ensures note.clientId == clientId ==> state == old(state)
      ensures note.clientId != clientId ==> state == old(state).(notes := old(state.notes) + [note])
    {
      if note.clientId == clientId {
        return;
      }
      Dispatch(AddNote(note));
    }

    /** `onChange` of a form input. */
    method OnChange(field: Field, value: string)
      modifies this
      ensures FieldValue(state.form, field) == value
      ensures FieldValue(state.form, OtherField(field)) == FieldValue(old(state.form), OtherField(field))
      ensures state.notes == old(state.notes) && state.loading == old(state.loading) && state.error == old(state.error)
    {
      Dispatch(SetInput(field, value));
    }

    /** `createNote`: refuses (`ok` false, nothing changes) unless both inputs
        are filled in; otherwise appends a new note built from the form with
        the session tag, `completed` false and the id `freshId`, then empties
        the form. */
    method CreateNote(freshId: string) returns (ok: bool)
      requires forall x :: x in state.notes ==> x.id != freshId
      modifies this
      ensures ok <==> old(state.form.name) != "" && old(state.form.description) != ""
      ensures !ok ==> state == old(state)
      ensures ok ==> |state.notes| == |old(state.notes)| + 1 && state.notes[..|old(state.notes)|] == old(state.notes)
      ensures ok ==> var n := state.notes[|old(state.notes)|];
        && fresh(n) && n.id == freshId && n.clientId == clientId && !n.completed
        && n.name == old(state.form.name) && n.description == old(state.form.description)
      ensures ok ==> state.form == EmptyForm && state.loading == old(state.loading) && state.error == old(state.error)
      ensures DistinctIds(old(state.notes)) ==> DistinctIds(state.notes)
    {
      var form := state.form;
      if form.name == "" || form.description == "" {
        return false;
      }
      var note := new Note(freshId, form.name, form.description, false, clientId);
      Dispatch(AddNote(note));
      Dispatch(ResetForm);
      ok := true;
    }

    /** `deleteNote`: the list without the object `target`. */
    method DeleteNote(target: Note)
      modifies this
      ensures state == old(state).(notes := Without(old(state.notes), target), loading := false)
      ensures SortedByName(old(state.notes)) ==> SortedByName(state.notes)
      ensures DistinctIds(old(state.notes)) ==> DistinctIds(state.notes)
    {
      if SortedByName(state.notes) {
        WithoutSorted(state.notes, target);
      }
      if DistinctIds(state.notes) {
        WithoutDistinct(state.notes, target);
      }
      Dispatch(SetNotes(Without(state.notes, target)));
    }

    /** `updateNote`: every note is rebuilt as a distinct new object, and the
        copy of `target` has its `completed` flag negated. */
    method UpdateNote(target: Note)
      modifies this
      ensures |state.notes| == |old(state.notes)|
      ensures forall i :: 0 <= i < |state.notes| ==> fresh(state.notes[i]) && SameExceptCompleted(state.notes[i], old(state.notes)[i])
      ensures forall i, j :: 0 <= i < j < |state.notes| ==> state.notes[i] != state.notes[j]
      ensures forall i :: 0 <= i < |state.notes| ==>
        (state.notes[i].completed != old(state.notes)[i].completed <==> old(state.notes)[i] == target)
      ensures !state.loading && state.error == old(state.error) && state.form == old(state.form)
      ensures SortedByName(old(state.notes)) ==> SortedByName(state.notes)
      ensures DistinctIds(old(state.notes)) ==> DistinctIds(state.notes)
    {
      var toggled := ToggleCompleted(state.notes, target);
      Dispatch(SetNotes(toggled));
    }
  }
}
