# Drag-and-drop project board, modelled in Dafny

The application is a browser task board. A form takes a project's title,
description and head count. Accepted entries go into a single observable
store, and two lists ("active" and "finished") show the store's projects of
their own status. Dragging an item onto the other list moves the project to
that list's status.

The model covers five parts of the application:

- **Entity model** (`models.dfy`, module `Models`): the two-valued status
  enumeration with its implicit ordinals, and the five-field project record.
- **Store** (`project_state.dfy`, module `State`): class `ProjectState`
  holds the ordered projects and the registered listeners, and keeps a
  ghost log of deliveries.
  - A notification round (`Round`) hands each listener, in registration
    order, the whole current sequence.
  - `moveProject` is specified by the function `Moved`, a first-match,
    status-only update.
  - The static `instance` field of `getInstance` is class `InstanceSlot`,
    whose ghost counter records how many stores were constructed.
- **Project list** (`project_list.dfy`, module `Lists`): class
  `ProjectList`.
  - Its order-preserving status filter is `Relevant`.
  - It re-renders with a clear-then-rebuild loop.
  - It has drag-over, drag-leave and drop handlers over a class set and a
    transfer record.
  - Its chrome is the list id and the heading.
- **Project item** (`project_item.dfy`, module `Items`): the `persons`
  label, the rendered text, and the drag-start handler writing the project
  id into the transfer record.
- **Input form** (`app.dfy`, module `Input`):
  - `validate`, which folds five optional checks;
  - the acceptance rule of `gatherUserInput`;
  - `submitHandler` with `clearInputs`.

Supporting modules:

- `options.dfy`: `Option`.
- `text.dfy`: the runtime string operations the code relies on. These are
  `trim` with the ECMA-262 whitespace set, printing an integer, reading a
  signed decimal integer back, and ASCII upper-casing.
- `drag_data.dfy`: the part of the platform's drag data store that the
  handlers use.
  - `setData` stores the string and moves the format to the end of
    `types`.
  - `getData` returns `""` for a format that holds nothing.

Three points where the code admits more than one reading, and which one
the model takes:

- Naming: the status member is spelled `finished` in the code and
  `Finished` here. This is a rename only; the ordinal 1 is kept.
- Snapshots: the call to `slice()` in `updateListeners` shows the intent
  to hand each listener a copy, but it copies only the array, so the
  project objects are shared. The model follows that intent: a snapshot
  is a value (see "Left out").
- The drop mark: after a drop, the code leaves the `droppable` mark on
  the list, and only drag-leave removes it. The model follows the code.

## Model

| member | source | states |
|---|---|---|
| Models.Ordinal | src/models/project.ts:1-4 | each status has ordinal 0 or 1, and that ordinal names the same status back |
| Models.FromOrdinal | src/models/project.ts:1-4 | exactly the ordinals 0 and 1 name a member, so the enumeration has two members; 0 names Active and 1 names the finished status |
| Models.OrdinalInjective | src/models/project.ts:1-4 | two statuses are equal exactly when their ordinals are, so `!==` on statuses is a genuine change test |
| State.Round | src/state/project-state.ts:49-53 | a notification round makes as many deliveries as there are listeners, and every delivery carries the same snapshot |
| State.RoundInRegistrationOrder | src/state/project-state.ts:49-53 | a round makes one delivery per listener; the i-th goes to the i-th registered listener and carries the whole snapshot |
| State.CallsMatchRegistrations | src/state/project-state.ts:9-11 | a listener registered k times is called k times per round (no de-duplication) |
| State.FindIndex | src/state/project-state.ts:42 | the index of the first project with the id, or None exactly when no project has it |
| State.MoveChanges | src/state/project-state.ts:42-43 | a move changes something exactly when some project has the id, no earlier project has it, and that first one's status differs from the requested one |
| State.Moved | src/state/project-state.ts:41-47 | the move keeps the length and every field except the status; the result differs from the input exactly when a project with the id exists and its status differs |
| State.MoveFirstMatch | src/state/project-state.ts:42-44 | for the first project with the id, the move sets its status and leaves every other project unchanged, and it changes something exactly when the old status differed |
| State.MoveUnknownId | src/state/project-state.ts:42-43 | an id no project has changes nothing and triggers no notification |
| State.MoveIdempotent | src/state/project-state.ts:43 | moving to the same status a second time changes nothing and triggers no notification |
| State.ProjectState.constructor | src/state/project-state.ts:14-20 | a new store has no projects, no listeners and an empty log |
| State.ProjectState.AddListener | src/state/project-state.ts:9-11 | the callback is appended to the listeners; projects and log are unchanged |
| State.ProjectState.AddProjects | src/state/project-state.ts:30-39 | the projects grow by exactly one Active project with the given fields; earlier projects and the listeners are unchanged; one round delivering the new sequence is logged |
| State.ProjectState.MoveProject | src/state/project-state.ts:41-47 | the projects become `Moved(old projects, id, status)`; one round is logged exactly when the move changes something, otherwise the log is unchanged |
| State.ProjectState.UpdateListeners | src/state/project-state.ts:49-53 | the log grows by exactly one round over the current listeners and projects; earlier deliveries stay as they were |
| State.InstanceSlot.constructor | src/state/project-state.ts:16 | the slot starts empty, with no store constructed |
| State.InstanceSlot.GetInstance | src/state/project-state.ts:22-28 | an existing store is returned unchanged; otherwise one fresh empty store is constructed and kept; at most one store is ever constructed |
| DragData.Without | src/components/project-item.ts:27 | every occurrence of the format is removed, and every other format keeps its number of occurrences |
| DragData.WithoutConcat | src/components/project-item.ts:27 | removal works piecewise over a concatenation, so the kept formats stay in their order |
| DragData.WithoutAbsent | src/components/project-item.ts:27 | removing a format that is not declared leaves the list unchanged |
| DragData.WithFormat | src/components/project-item.ts:27 | after `setData` the other formats keep their order and count, followed by the format itself, which is then declared exactly once |
| DragData.DataTransfer.GetData | src/components/project-list.ts:32 | the string stored under the format, or "" when nothing is stored under it |
| DragData.DataTransfer.SetData | src/components/project-item.ts:27 | keeps the store well formed (the declared types are exactly the formats holding data, each declared once); the data is stored under the format, so reading the format gives it back and every other format reads as before; the format moves to the end of the declared types; the allowed effect is unchanged |
| Items.ProjectItem.Persons | src/components/project-item.ts:9-15 | "1 person" exactly when there is one person; otherwise the printed head count followed by " persons", also for 0 |
| Items.PersonsInjective | src/components/project-item.ts:9-15 | two items get the same label exactly when they have the same head count |
| Items.ProjectItem.RenderContent | src/components/project-item.ts:39-43 | the rendered item shows the title and the description verbatim, under the project id, and its h3 line is the `persons` label followed by " assigned" |
| Items.RenderContentFaithful | src/components/project-item.ts:39-43 | two rendered items have the same "assigned" line exactly when they have the same head count |
| Items.ProjectItem.DragEnd | src/components/project-item.ts:31-33 | the handler changes no state (no `modifies` clause); its console message "event" is returned |
| Items.ProjectItem.DragStart | src/components/project-item.ts:26-29 | the store stays well formed; the project id is stored under "text/plain" and declared, the allowed effect becomes "move", and reading "text/plain" back gives the id |
| Lists.TypeName | src/components/project-list.ts:12 | the active kind is named "active" and the finished kind "finished", and neither name belongs to the other kind |
| Lists.TargetStatus | src/components/project-list.ts:35 | the active list maps to the Active status and the finished list to the finished status, each exactly (the same mapping the filter at src/components/project-list.ts:58-61 uses) |
| Lists.Relevant | src/components/project-list.ts:57-62 | the filtered sequence is no longer than the snapshot and holds only projects of the list's status |
| Lists.RelevantMembership | src/components/project-list.ts:57-62 | a project is kept exactly when it is in the snapshot and has the list's status |
| Lists.RelevantConcat | src/components/project-list.ts:57-62 | the filter distributes over concatenation, so the kept projects keep their snapshot order |
| Lists.RelevantPartition | src/components/project-list.ts:57-62 | the active and the finished filter together hold each project of the snapshot exactly as often as the snapshot does |
| Lists.ListId | src/components/project-list.ts:70 | the list id is the list type followed by "-projects-list" |
| Lists.Heading | src/components/project-list.ts:72 | the heading is the upper-cased list type followed by " PROJECTS" |
| Lists.ActiveHeading | src/components/project-list.ts:72 | the active list's heading is "ACTIVE PROJECTS" |
| Lists.FinishedHeading | src/components/project-list.ts:72 | the finished list's heading is "FINISHED PROJECTS" |
| Lists.ActiveListId | src/components/project-list.ts:70-71 | the active list's id is "active-projects-list" |
| Lists.FinishedListId | src/components/project-list.ts:70-71 | the finished list's id is "finished-projects-list" |
| Lists.ListIdsDistinct | src/components/project-list.ts:70-71 | two lists' ids are equal exactly when their types are |
| Lists.AcceptsDrag | src/components/project-list.ts:22 | a drag is accepted only when plain text is declared, as the first format |
| Lists.AcceptsDragAfterSetData | src/components/project-list.ts:22 | after drag-start writes plain text, a drag-over is accepted exactly when no other format was declared; from an empty record it is accepted |
| Lists.ProjectList.constructor | src/components/project-list.ts:12-18 | a new list has nothing assigned or rendered, registers itself as the store's last listener without touching projects or log, and shows its id and heading |
| Lists.ProjectList.Configure | src/components/project-list.ts:52-67 | the list is appended to the store's listeners; projects and log are unchanged |
| Lists.ProjectList.Notify | src/components/project-list.ts:56-65 | the assigned projects become exactly the snapshot's projects of the list's status, and one item is rendered per assigned project, in order, so equal snapshots render equally |
| Lists.ProjectList.RenderProjects | src/components/project-list.ts:44-50 | the previous items are discarded and the rendered items are exactly one rendering per assigned project, in order |
| Lists.ProjectList.DragOver | src/components/project-list.ts:21-27 | the default is prevented exactly when transfer data is present with "text/plain" as first declared type; then "droppable" is added to the class set, otherwise the set is unchanged |
| Lists.ProjectList.DragLeave | src/components/project-list.ts:40-43 | "droppable" is removed from the class set unconditionally; all other classes stay |
| Lists.ProjectList.Drop | src/components/project-list.ts:31-37 | the store's projects become `Moved` by the "text/plain" payload to Active for the active list and to Finished otherwise; a round is logged exactly when that changes something |
| Lists.ProjectList.RenderContent | src/components/project-list.ts:69-73 | the list id becomes the type followed by "-projects-list" and the heading the upper-cased type followed by " PROJECTS" |
| Lists.DragAndDrop | src/components/project-list.ts:21-37 | drag-start on an item, then drag-over and drop on a list: the drag-over is accepted, the list is marked droppable, and the store moves exactly the dragged project's id to the list's status |
| Lists.BoardScenario | src/state/project-state.ts:30-47 | adding "Build site" and "Write docs" and then moving the first to finished leaves the active filter with only "Write docs" and the finished filter with only "Build site", whatever the two ids are |
| Text.TrimStart | src/app.ts:117 | the result is the suffix of the input that starts at the first non-whitespace character |
| Text.TrimEnd | src/app.ts:117 | the result is the prefix of the input that ends at the last non-whitespace character |
| Text.Trim | src/app.ts:117 | defined as `TrimEnd(TrimStart(s))`, so the two rows above give what is removed; its own contract: neither end of the result is whitespace, and it is no longer than the input |
| Text.TrimEmptyIffBlank | src/app.ts:117 | a string trims to empty exactly when every character in it is whitespace |
| Text.NatToString | src/components/project-item.ts:13 | a natural number prints as at least one decimal digit, with no leading zero except for 0 itself |
| Text.NatToStringRoundTrip | src/components/project-item.ts:13 | the printed digits read back as the number |
| Text.IntToString | src/components/project-item.ts:13 | an integer prints as an optional leading "-", present exactly for negatives, followed by decimal digits |
| Text.ParseInteger | src/app.ts:187 | a value is read exactly from an optionally signed, non-empty run of decimal digits; the sign decides the sign of the value |
| Text.IntToStringRoundTrip | src/app.ts:187 | a printed integer reads back as itself |
| Text.IntToStringInjective | src/components/project-item.ts:13 | two integers print the same exactly when they are equal |
| Text.IntToStringTrimmed | src/app.ts:117 | a printed integer has no surrounding whitespace, so trimming keeps it |
| Text.ToUpperAscii | src/components/project-list.ts:72 | upper-casing keeps the length and maps each character independently |
| Input.ToText | src/app.ts:117 | a string's text is the string itself; a number's text reads back as that number |
| Input.Validate | src/app.ts:114-132 | valid exactly when every enabled check passes: `required` means the trimmed text is non-empty; minLength (at least) and maxLength (below) apply to strings only; min and max, both exclusive, apply to numbers only |
| Input.ValidateUnconstrained | src/app.ts:114-131 | with no constraint enabled every value is valid |
| Input.RequiredRejectsBlank | src/app.ts:116-118 | `required` rejects exactly the strings made only of whitespace, and never rejects a number |
| Input.ValidateMonotone | src/app.ts:115-131 | enabling more constraints on the same value never turns an invalid input valid |
| Input.ToNumber | src/app.ts:187 | the people field reads as a number exactly when it is blank or, trimmed, an optionally signed run of digits; a blank field reads as 0 |
| Input.ToNumberRoundTrip | src/app.ts:187 | unary `+` on a printed integer gives that integer |
| Input.TextField | src/app.ts:176-184 | the field checks the entered string, and it passes exactly when that string is not all whitespace |
| Input.PeopleField | src/app.ts:186-191 | the field checks the head count, and it passes exactly when the count is strictly between 1 and 5 |
| Input.GatherUserInput | src/app.ts:171-203 | an accepted entry returns the title and the description as entered, untrimmed, and the number read from the people field, which lies in 2..4 |
| Input.GatherUserInputRule | src/app.ts:193-198 | the form accepts exactly when title and description are not blank and the people field reads as a number strictly between 1 and 5 |
| Input.GatherUserInputAccepts | src/app.ts:193-198 | a non-blank title and description with a people field reading as a number strictly between 1 and 5 are returned as the accepted entry, as entered |
| Input.SampleInputAccepted | src/app.ts:171-203 | the entry ("Build site", "desc", "3") is accepted, with head count 3 |
| Input.ProjectInput.constructor | src/app.ts:155-169 | the form starts with three empty fields |
| Input.ProjectInput.ClearInputs | src/app.ts:205-209 | all three fields become "" |
| Input.ProjectInput.Submit | src/app.ts:211-220 | the alert is raised exactly when the input is rejected. On accepted input one Active project with the entered values is appended, one round is logged and the fields are cleared. On rejected input the store, the log and the fields are unchanged |
| Input.Startup | src/app.ts:231-233 | start-up gives an empty store whose listeners are the active list and then the finished list, an empty form and two empty lists |

## Left out

- DOM and templating: `importNode`, `insertAdjacentElement`, `querySelector`, `innerHTML` and `attach` are left out. Rendered items are a sequence of `ItemView` values, and a list's class list is a set of strings. The `Component` base class (src/components/base-components.ts) is not part of this model.
- The `autoBind` decorator binds the receiver of a method; there is no behaviour to model.
- `Math.random()` ids: the id is a parameter of `AddProjects` and `Submit`. The code gives no uniqueness guarantee, and the model assumes none.
- Listener closures are not run. Each delivery is recorded in the ghost log, and `ProjectList.Notify` is the list's registered callback applied to a snapshot.
- State.ProjectState.UpdateListeners: snapshots are values in the model. In the code, `slice()` copies the array but shares the project objects, so a later in-place status change by `moveProject` is also visible through an earlier snapshot's element.
- State.InstanceSlot.GetInstance: the private constructor cannot be enforced in Dafny. The slot's counter shows that `getInstance` itself constructs at most one store.
- Input.ToNumber, Input.GatherUserInput: unary `+` on the people field is modelled for integers only. A trimmed blank field is 0, and an optional sign with decimal digits is that integer; every other entry reads as no number and is rejected. In JavaScript, fractions, exponents and hexadecimal entries such as "2.5" or "0x3" give a number, and the code accepts those between 1 and 5.
- Input.Validate: string lengths count characters. JavaScript counts UTF-16 code units, which differ for characters outside the Basic Multilingual Plane.
- Text.IntToString: integers print in plain decimal. JavaScript prints numbers of magnitude 10^21 or more in exponent form ("1e+21"); the form only accepts head counts 2 to 4.
- Text.ToUpperAscii: upper-casing is ASCII only. The only strings it is applied to are the list types "active" and "finished".
- `alert`, the `console.log` output (other than the message `DragEnd` returns) and the submit event's `preventDefault` are left out. The alert is the `alerted` result of `Submit`.
- DragData.DataTransfer.SetData: format names are not normalised, for example by lower-casing.
- The platform's other drag-and-drop behaviour is left out. This includes drag events, the drop effect and the data store's protection modes.
- The form's and the lists' initial field values and classes are taken as empty, because the HTML templates are not part of this model.
- Input.Startup: in src/app.ts the two lists at lines 232-233 are the draft `ProjectList` of that file; the form at line 231 is the `ProjectInput` modelled here. Start-up wires the module `ProjectList` and the module store (obtained through `getInstance`) instead.
- The form's submission goes to the draft store declared at src/app.ts:17-50. Its `addProjects` behaves like the module store's, so `Submit` calls `State.ProjectState.AddProjects`.
- The superseded drafts in src/app.ts (`ProjectState` at lines 17-50 and `ProjectList` at lines 67-112) are not modelled separately. Neither are the compiled copies under dist/.
- Lists.BoardScenario: the scenario runs on the store and the lists' filter function. Creating the lists and rendering each notification on the way is not included in it; `ProjectList.Notify` states what a list renders for any snapshot.
