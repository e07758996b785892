# Customers page: list and edit-modal state machine

A Dafny model of the customers page of an admin dashboard. The page holds an
in-memory list of customer records, a modal-open flag and the record being
edited. A modal form edits a working draft. When the modal closes, the
page either discards the draft (cancel), merges it into the edited row, or
stamps it with a new id and creation date and puts it at the front of the
list.

Modules, one per component of `app/routes/Pages/Customers/Customers.js`:

- `Wrappers` (`wrappers.dfy`): `Option`, for `null` values and absent properties.
- `CustomerData` (`customer.dfy`): the stored `Customer`, the modal's `Draft`, the
  empty draft, and the sample-data shape. It also gives a key/value view of both
  records (`CustomerObject`, `DraftObject`). Against that view, JavaScript's
  object spread is map union and a property assignment is a map update.
- `Columns` (`columns.dfy`): the sort indicator shared by the table's columns.
- `AddNewModal` (`add_new_modal.dfy`): the draft's change handler, the validity
  test behind the Save button, cancel, save, seeding from the edited record, and the heading.
- `CustomersPage` (`customers_page.dfy`): `findIndex`, the close transition,
  row selection and the "+" button.
- `Session` (`session.dfy`): the page and modal driven by user events. It holds
  the invariant that links them, the three-state modal, and whole create, edit
  and cancel sessions.

The clock (`new Date()`) is an explicit `now` argument. The sample data is any
list whose row `i` has id `i`; the page uses ten such rows.

## Model

| member | source | states |
|---|---|---|
| `CustomerData.FromCustomer` | app/routes/Pages/Customers/Customers.js:72-76 | a draft seeded from a record has exactly that record's properties, including its id and creation date |
| `CustomerData.Merge` | app/routes/Pages/Customers/Customers.js:133-136 | the merged record's properties are the stored record's properties overridden by every property the draft has (object spread as map union) |
| `CustomerData.Stamp` | app/routes/Pages/Customers/Customers.js:139-141 | the created record is the draft's properties with `id` and `dateAdded` assigned over them |
| `CustomerData.CustomerObjectInjective` | app/routes/Pages/Customers/Customers.js:57-63 | two stored records with the same five properties are the same record |
| `CustomerData.DraftObjectInjective` | app/routes/Pages/Customers/Customers.js:65-80 | two drafts with the same properties (including which of `id` and `dateAdded` are present) are the same draft, so the contracts stated on the property view pin the draft down |
| `CustomerData.MergeSeedRoundTrip` | app/routes/Pages/Customers/Customers.js:133-136 | merging a record's own seeded copy back into it gives the record unchanged |
| `CustomerData.MergeKeepsIdentity` | app/routes/Pages/Customers/Customers.js:133-136 | a draft whose id and date, when present, are the stored ones leaves the record's id and creation date unchanged and supplies every form field |
| `CustomerData.IndexIdsWellFormed` | app/routes/Pages/Customers/Customers.js:57-58 | sample ids `0..n-1` are unique and each is at most the list length |
| `Columns.SortCaret` | app/routes/Pages/Customers/Customers.js:18-23 | the neutral indicator appears exactly when the column is unsorted; a sorted column gets the directional class prefix |
| `Columns.SortCaretInjective` | app/routes/Pages/Customers/Customers.js:18-23 | unsorted, ascending and descending give three different indicators |
| `AddNewModal.IsValid` | app/routes/Pages/Customers/Customers.js:82-84 | the `&&` chain yields one of the three fields, and that value is truthy iff name, contact and phone are all non-empty |
| `AddNewModal.SaveDisabledIffFieldEmpty` | app/routes/Pages/Customers/Customers.js:117 | Save is disabled exactly when some required field is empty |
| `AddNewModal.OnInputChange` | app/routes/Pages/Customers/Customers.js:78-80 | the named field takes the new value; the other fields, the id and the date are unchanged |
| `AddNewModal.InputChangeOverrides` | app/routes/Pages/Customers/Customers.js:78-80 | a second change to a field overrides the first |
| `AddNewModal.InputChangesCommute` | app/routes/Pages/Customers/Customers.js:78-80 | changes to different fields can happen in either order |
| `AddNewModal.Cancel` | app/routes/Pages/Customers/Customers.js:86-89 | after cancel the draft holds three empty fields and no id or date, and nothing is handed back |
| `AddNewModal.Save` | app/routes/Pages/Customers/Customers.js:91-94 | after save the draft is empty, and the draft as it was before the reset is handed back |
| `AddNewModal.SeedFromExisting` | app/routes/Pages/Customers/Customers.js:72-76 | a present edit record replaces the draft by that record's properties; an absent one leaves the draft alone |
| `AddNewModal.SeededEditChangesOnlyField` | app/routes/Pages/Customers/Customers.js:72-80 | seeding, changing one field and merging back keeps the id and creation date and changes only that field |
| `AddNewModal.Title` | app/routes/Pages/Customers/Customers.js:98 | the heading is "Edit Customer" exactly when an edit record is present, otherwise "Create Customer" |
| `CustomersPage.FindIndex` | app/routes/Pages/Customers/Customers.js:131 | the result is the first position whose id matches, or -1 exactly when no row matches |
| `CustomersPage.OnNewModalClosed` | app/routes/Pages/Customers/Customers.js:128-147 | the modal flag flips and the target is cleared. Cancel keeps the list. Create adds one row in front, with id `length + 1`, the given time and the draft's fields, over the old list. Edit keeps the length and changes only the first row with the target's id, to the merge |
| `CustomersPage.OnRowSelected` | app/routes/Pages/Customers/Customers.js:149-152 | the row becomes the edit target, the modal opens, the list is unchanged |
| `CustomersPage.OnAddClicked` | app/routes/Pages/Customers/Customers.js:177 | the modal opens; the list and the edit target are unchanged |
| `CustomersPage.CancelLeavesListUnchanged` | app/routes/Pages/Customers/Customers.js:128-147 | cancelling an open modal gives the same list, a closed modal and no target |
| `CustomersPage.EditTouchesOnlyFirstMatch` | app/routes/Pages/Customers/Customers.js:130-137 | a row the edit changes carries the target id with no earlier row carrying it; when no row carries it, the list is unchanged |
| `CustomersPage.CreateKeepsIdsFresh` | app/routes/Pages/Customers/Customers.js:138-141 | if ids are unique and at most the length, the new id exceeds every existing id, and both properties still hold afterwards |
| `CustomersPage.EditReplacesTarget` | app/routes/Pages/Customers/Customers.js:130-137 | with unique ids and the target one of the rows, the edit replaces exactly that row by the merge |
| `Session.InitialInv` | app/routes/Pages/Customers/Customers.js:57-63 | the first render over sample rows satisfies the session invariant |
| `Session.StepPreservesInv` | app/routes/Pages/Customers/Customers.js:124-152 | every offered event preserves the invariant. The invariant: ids unique and at most the length; stored records complete; a closed modal has no target and an empty draft; the target is one of the rows; a draft's id and date, when present, are the target's |
| `Session.RunPreservesInv` | app/routes/Pages/Customers/Customers.js:124-152 | any sequence of offered events preserves the invariant |
| `Session.ReachableWellFormed` | app/routes/Pages/Customers/Customers.js:57-63 | from the sample data, every reachable list has unique ids that are at most its length and only complete records |
| `Session.ModeTransitions` | app/routes/Pages/Customers/Customers.js:145-152 | the modal's three modes: "+" goes from Closed to Open-Create, a row goes from Closed to Open-Edit, cancel and an enabled save close it, a disabled Save changes nothing, input and seeding keep the mode, and the heading says "Edit Customer" exactly in Open-Edit |
| `Session.InputsTouchOnlyFields` | app/routes/Pages/Customers/Customers.js:78-80 | any amount of typing leaves the page state and the draft's id and date unchanged |
| `Session.CancelAfterEdits` | app/routes/Pages/Customers/Customers.js:86-89 | cancelling after any amount of typing leaves the list unchanged and the modal closed with an empty draft |
| `Session.CreateSession` | app/routes/Pages/Customers/Customers.js:138-141 | "+", typing, then Save puts the typed record, stamped with `length + 1` and the current time, in front of the unchanged list; no existing row had that id |
| `Session.EditSession` | app/routes/Pages/Customers/Customers.js:130-137 | selecting a row, seeding, typing, then Save keeps that row's id and creation date, takes the typed fields, and changes no other row or the length |

## Notes on the code's behaviour

- The "+" button only sets the modal flag. It does not clear the edit target.
  `Session.Inv` shows that a closed modal never has a target, so from any
  reachable state "+" opens the modal in create mode.
- The edit merge lays every property of the draft over the stored record, the
  id and the date included. A seeded draft carries the stored id and date, so they survive
  (`CustomerData.MergeKeepsIdentity`).
- The create path overwrites whatever id the draft carries with `length + 1`.
  With sample ids `0..9` the first created id is 11, not 10. Ids stay unique
  because every id is at most the list length (`CustomersPage.CreateKeepsIdsFresh`).
- An edit target with no matching row writes to the array's property "-1".
  The elements are unchanged. Under `Session.Inv` this cannot happen.
- Closing flips the modal flag rather than clearing it. From an open modal,
  which is the only state the close buttons are offered in, the two agree.

## Left out

- React rendering, JSX and hook scheduling. The `useEffect` seeding is an explicit `SeedEffect` event. When React runs it relative to other events is not modelled.
- Search filtering and column sorting (lines 160-193). Both happen inside the table and toolkit libraries, and `SearchBar` is not part of this model.
- The column schema (lines 25-55) beyond the shared `sortCaret`. Its labels, styles and sortability are rendering configuration.
- The `DD/MM/YYYY` date formatting (line 51). `dateAdded` is an opaque integer timestamp.
- `faker` sample generation (lines 57-63). The model takes any list whose row `i` has id `i`. `IsFakeData` fixes the count at ten and assumes the generated strings are non-empty.
- `Columns.SortCaret`: returns the indicator's class name rather than the `<i>` element.
- Ids are JavaScript numbers (doubles). `length + 1` is modelled as exact integer arithmetic, which is exact for any list below 2^53 rows.
- Mutation and aliasing of the draft object (line 139 assigns to the handed-back object). The model builds new values. The modal's state has already been reset to the empty draft by then, so nothing observable differs.
