/** The application state and the reducer that is its only transition
    function. Every arm of the source's `switch` builds a new record by
    spreading the old one; here that is a datatype update. */
module Reducer {
  import opened Notes

  /** The two text inputs of the form. */
  datatype Form = Form(name: string, description: string)

  const EmptyForm: Form := Form("", "")

  datatype State = State(notes: seq<Note>, loading: bool, error: bool, form: Form)

  /** The state the component starts from: no notes, still loading. */
  const InitialState: State := State([], true, false, EmptyForm)

  /** The form inputs, named by their `name` attribute. */
  datatype Field = Name | Description

  /** The action kinds the reducer recognises, and `Other` for any other `type`. */
  datatype Action =
    | SetNotes(notes: seq<Note>)
    | Error
    | AddNote(note: Note)
    | ResetForm
    | SetInput(field: Field, value: string)
    | Other(kind: string)

  function FieldValue(f: Form, field: Field): string
  {
    match field
    case Name => f.name
    case Description => f.description
  }

  function OtherField(field: Field): (r: Field)
    ensures r != field
  {
    match field
    case Name => Description
    case Description => Name
  }

  /** A form input change: the named input takes the value, the other keeps its own. */
  function SetField(f: Form, field: Field, value: string): (r: Form)
    ensures FieldValue(r, field) == value
    ensures FieldValue(r, OtherField(field)) == FieldValue(f, OtherField(field))
  {
    match field
    case Name => f.(name := value)
    case Description => f.(description := value)
  }

  /** The reducer. Its contract says, field by field, which actions may change
      that field and what each action leaves there. */
  function Reduce(s: State, a: Action): (r: State)
    // frames: who may touch what
    ensures r.notes != s.notes ==> a.SetNotes? || a.AddNote?
    ensures r.loading != s.loading ==> a.SetNotes? || a.Error?
    ensures r.error != s.error ==> a.Error?
    ensures r.form != s.form ==> a.ResetForm? || a.SetInput?
    // effects
    ensures a.SetNotes? ==> r.notes == a.notes && !r.loading
    ensures a.Error? ==> r.error && r.loading
    ensures a.AddNote? ==> |r.notes| == |s.notes| + 1 && r.notes[..|s.notes|] == s.notes && r.notes[|s.notes|] == a.note
    ensures a.ResetForm? ==> r.form == EmptyForm
    ensures a.SetInput? ==> FieldValue(r.form, a.field) == a.value
    ensures a.SetInput? ==> FieldValue(r.form, OtherField(a.field)) == FieldValue(s.form, OtherField(a.field))
    ensures a.Other? ==> r == s
  {
    match a
    case SetNotes(notes) => s.(notes := notes, loading := false)
    case Error => s.(error := true, loading := true)
    case AddNote(note) => s.(notes := s.notes + [note])
    case ResetForm => s.(form := EmptyForm)
    case SetInput(field, value) => s.(form := SetField(s.form, field, value))
    case Other(_) => s
  }

  /** The state after dispatching `acts` one at a time, in order. */
  function ReduceAll(s: State, acts: seq<Action>): State
    decreases |acts|
  {
    if acts == [] then s else ReduceAll(Reduce(s, acts[0]), acts[1..])
  }

  /** Dispatching two batches in turn is dispatching their concatenation. */
  lemma {:induction false} ReduceAllAppend(s: State, a: seq<Action>, b: seq<Action>)
    ensures ReduceAll(s, a + b) == ReduceAll(ReduceAll(s, a), b)
    decreases |a|
  {
    if a == [] {
      assert a + b == b;
    } else {
      assert (a + b)[0] == a[0];
      assert (a + b)[1..] == a[1..] + b;
      ReduceAllAppend(Reduce(s, a[0]), a[1..], b);
    }
  }

  /** Unrecognised actions, any number of them, leave the state as it was. */
  lemma {:induction false} OtherActionsChangeNothing(s: State, acts: seq<Action>)
    requires forall i :: 0 <= i < |acts| ==> acts[i].Other?
    ensures ReduceAll(s, acts) == s
    decreases |acts|
  {
    if acts != [] {
      OtherActionsChangeNothing(s, acts[1..]);
    }
  }

  /** The error flag is never cleared: it is set after a batch exactly when it
      was set before or the batch held an `Error` action. */
  lemma {:induction false} ErrorSticky(s: State, acts: seq<Action>)
    ensures ReduceAll(s, acts).error <==> s.error || Error in acts
    decreases |acts|
  {
    if acts != [] {
      ErrorSticky(Reduce(s, acts[0]), acts[1..]);
      assert acts == [acts[0]] + acts[1..];
    }
  }

  /** One `ADD_NOTE` per note. */
  function AddActions(ns: seq<Note>): seq<Action>
  {
    seq(|ns|, i requires 0 <= i < |ns| => AddNote(ns[i]))
  }

  /** Adding appends in order and never de-duplicates: a note added twice is
      listed twice. */
  lemma {:induction false} AddNotesAppend(s: State, ns: seq<Note>)
    ensures ReduceAll(s, AddActions(ns)) == s.(notes := s.notes + ns)
    ensures multiset(ReduceAll(s, AddActions(ns)).notes) == multiset(s.notes) + multiset(ns)
    decreases |ns|
  {
    if ns == [] {
      assert s.notes + ns == s.notes;
    } else {
      assert AddActions(ns)[1..] == AddActions(ns[1..]);
      AddNotesAppend(Reduce(s, AddNote(ns[0])), ns[1..]);
      assert s.notes + [ns[0]] + ns[1..] == s.notes + ns;
    }
  }

  /** Filling in both inputs and then resetting the form. */
  lemma FormEditThenReset(s: State, x: string, y: string)
    ensures ReduceAll(s, [SetInput(Name, x), SetInput(Description, y)]).form == Form(x, y)
    ensures ReduceAll(s, [SetInput(Name, x), SetInput(Description, y), ResetForm]) == s.(form := EmptyForm)
  {
    var s1 := Reduce(s, SetInput(Name, x));
    var s2 := Reduce(s1, SetInput(Description, y));
    assert ReduceAll(s2, []) == s2;
    assert ReduceAll(s1, [SetInput(Description, y)]) == s2;
    assert ReduceAll(s2, [ResetForm]) == s.(form := EmptyForm);
    assert [SetInput(Description, y), ResetForm][1..] == [ResetForm];
    assert ReduceAll(s1, [SetInput(Description, y), ResetForm]) == s.(form := EmptyForm);
  }
}
