# Notes app: reducer and note-list controller

This project models the state logic of a small React note-taking client
(`src/App.js`). The client keeps one state record: the list of notes, a
`loading` flag, an `error` flag and a two-field form. A pure reducer is the
only way that record changes. Event handlers compute new note lists and
dispatch actions into the reducer:

- fetching the list sorts it by name;
- the creation subscription ignores echoes of this session's own notes;
- creating validates the form and appends a new note;
- deleting filters the target note out;
- updating flips the target's `completed` flag.

Modules, one per component:

- `NameOrder` (`name_order.dfy`): the string order used by the sort comparator (`a.name >= b.name`). Lemmas prove it is a total order and match it to an independent first-difference definition.
- `Notes` (`notes.dfy`): the `Note` object, the display-order and distinct-id predicates, the `filter` used by delete (`Without`), the in-place sort (`SortByName`) and the `map` used by update (`ToggleCompleted`).
- `Reducer` (`reducer.dfy`): `State`, the closed `Action` type, the reducer `Reduce`, and `ReduceAll`, which dispatches a sequence of actions in order, with lemmas about runs of actions.
- `App` (`controller.dfy`): `class Controller` with the session `clientId` fixed at construction and a mutable `state`. Every state change a handler makes goes through `Dispatch` (`state := Reduce(state, a)`); an echoed notification and a refused create return without dispatching.

Notes are JavaScript objects. Delete and update pick their target with `!=` and `==` on objects, which is identity. So `Note` is a class whose fields are all `const`, and `==` on notes is reference equality. Two notes with equal fields are still different notes.

Notes on the code's behaviour (`src/App.js`):

- The sort by name happens in `fetchNotes`, before `SET_NOTES` is dispatched; the reducer itself never sorts. `SET_NOTES` dispatched by delete and update does not sort either. The model proves that delete and update keep a sorted list sorted.
- The comparator `a.name >= b.name ? 1 : -1` is not consistent when two names are equal. So the model claims only a permutation that is non-decreasing by name, and no stability.
- `updateNote` rebuilds every note as a new object, not only the target. `UpdateNote` states that every entry is fresh and that no two entries are the same object.
- Delete and update both go through `SET_NOTES`, so both also clear `loading`.
- Nothing in the code enforces distinct ids. The subscription can append a note whose id is already listed, and `ADD_NOTE` never de-duplicates. The model proves that create (given an unused id), delete and update preserve `DistinctIds`. It does not claim the subscription does.
- `ERROR` sets `loading` back to true, alongside `error`. The model keeps this literally.

## Model

| member | source | states |
|---|---|---|
| NameOrder.NameLeIff | src/App.js:107 | the comparator's string order holds exactly when one name is a prefix of the other or the first differing character is smaller |
| NameOrder.NameLeReflexive | src/App.js:107 | every name sorts no later than itself |
| NameOrder.NameLeTotal | src/App.js:107 | any two names are comparable, so the sort has a well-defined target order |
| NameOrder.NameLeTransitive | src/App.js:107 | the name order is transitive |
| NameOrder.NameLeAntisymmetric | src/App.js:107 | two names that sort no later than each other are equal |
| Notes.Note.constructor | src/App.js:179-184 | a note object carries exactly the id, name, description, completed flag and client tag it is built with |
| Notes.Without | src/App.js:228 | the filtered list contains no occurrence of the target, and its multiset is the old one with every copy of the target removed (length drops by exactly that many) |
| Notes.WithoutAppend | src/App.js:228 | filtering distributes over concatenation, so the survivors keep their relative order |
| Notes.WithoutAbsent | src/App.js:228 | deleting a note that is not listed leaves the list unchanged |
| Notes.WithoutSubset | src/App.js:228 | every note left after deletion was in the list and is not the target |
| Notes.WithoutSorted | src/App.js:228 | deleting from a name-sorted list leaves it name-sorted |
| Notes.WithoutDistinct | src/App.js:228 | deleting from a list with distinct ids leaves the ids distinct |
| Notes.SortByName | src/App.js:107 | the in-place sort leaves the array non-decreasing by name and a permutation of its old contents |
| Notes.ToggleCompleted | src/App.js:253-256 | the mapped list has the same length; every entry is a new object, no two entries are the same object, and each has the same id, name, description and client tag as the old entry at that position; `completed` differs from the old entry exactly where the old entry is the target |
| Reducer.SetField | src/App.js:78-85 | `SET_INPUT` sets the named form field to the value and keeps the other field |
| Reducer.Reduce | src/App.js:46-92 | only `SET_NOTES` and `ADD_NOTE` change `notes`; only `SET_NOTES` and `ERROR` change `loading`; only `ERROR` changes `error`; only `RESET_FORM` and `SET_INPUT` change `form`. `SET_NOTES` installs the given list with `loading` false. `ERROR` leaves `error` and `loading` both true. `ADD_NOTE` keeps the old list as a prefix and adds the note last. `RESET_FORM` empties the form. `SET_INPUT` sets one field and keeps the other. Any other action returns the state unchanged |
| Reducer.ReduceAllAppend | src/App.js:46-92 | dispatching two batches of actions one after the other is the same as dispatching their concatenation |
| Reducer.OtherActionsChangeNothing | src/App.js:87-90 | any number of unrecognised actions leave the state exactly as it was |
| Reducer.ErrorSticky | src/App.js:56-61 | after a batch of actions, `error` is set exactly when it was set before or the batch contained `ERROR`; nothing clears it |
| Reducer.AddNotesAppend | src/App.js:63-70 | adding notes one by one appends them in order with no de-duplication: the multiset of notes grows by exactly the added notes, so a note added twice is listed twice |
| Reducer.FormEditThenReset | src/App.js:72-85 | setting the name and then the description gives exactly that form; a following `RESET_FORM` restores the original state with an empty form |
| App.Controller.constructor | src/App.js:34-44 | a new controller holds the given session tag and the initial state: no notes, loading, no error, empty form |
| App.Controller.Dispatch | src/App.js:96 | dispatching replaces the state by the reducer's result |
| App.Controller.FetchNotes | src/App.js:98-117 | on a list response the items become the notes, sorted by name, as a permutation of what arrived; `loading` is cleared and `error` and form are kept. On a failure, `error` and `loading` are set and nothing else changes |
| App.Controller.OnCreateNotification | src/App.js:129-145 | a notified note whose client tag is this session's leaves the state unchanged; any other note is appended to the list and nothing else changes |
| App.Controller.OnChange | src/App.js:214-220 | an input change sets that form field, keeps the other field, and leaves notes, `loading` and `error` unchanged |
| App.Controller.CreateNote | src/App.js:169-212 | succeeds exactly when both form fields are non-empty. On refusal the state is unchanged. On success one new note is appended after the old list; it has the form's name and description, this session's tag, `completed` false and the supplied id; the form is then empty and the flags are kept. Distinct ids stay distinct |
| App.Controller.DeleteNote | src/App.js:223-246 | the list becomes the old list with every occurrence of the target object removed, `loading` is cleared, and nothing else changes; sortedness and distinct ids are preserved |
| App.Controller.UpdateNote | src/App.js:248-276 | the list keeps its length and order; every entry is a new object, pairwise different, with the old entry's data, and `completed` is negated exactly on the copies of the target; `loading` is cleared and `error` and form are kept; sortedness and distinct ids are preserved |

## Left out

- The remote GraphQL calls (list, create, delete, update; src/App.js:101-103, 200-205, 233-240, 261-268) are network I/O to a backend that is not part of this model. A list outcome is a parameter of `FetchNotes`. Create, delete and update outcomes are only logged by the source, so they change nothing and are not modelled.
- The subscription transport and its lifetime (`subscribe`, `unsubscribe`, the mount effect; src/App.js:119-152) are framework plumbing. Only the per-notification handler is modelled.
- Asynchronous interleaving is not modelled. The handlers read a possibly stale `state` captured by their closure, and in-flight calls race with later dispatches. The model runs each handler against the current state, one at a time.
- `uuid()` (src/App.js:34, 183) is an external library. The session tag is a constructor argument, and the new note's id is a parameter of `CreateNote` that is required to be unused in the current list.
- `console.log`, `console.error` and `alert` are output only. The alert for an incomplete form is the `false` result of `CreateNote`.
- Rendering, styles and the JSX tree (src/App.js:154-167, 278-335) are not modelled.
- Reducer.SetField: models only the two form inputs `name` and `description`. The source's computed key `[action.name]` would add any other key to the form, but the component only ever sends these two.
- NameOrder.NameLe: compares Dafny characters, which are Unicode scalar values. JavaScript compares UTF-16 code units, so the two orders differ for characters outside the Basic Multilingual Plane compared with characters in U+E000–U+FFFF.
- Notes.SortByName: does not model which permutation the JavaScript engine picks among equal names, because the comparator is inconsistent there. It states only a permutation that is non-decreasing by name.
- Fields a server-side note may carry beyond id, name, description, completed and client tag are not modelled, because no logic reads them.
