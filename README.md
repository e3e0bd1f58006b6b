# Kanban board todo store and card, modelled in Dafny

This project models the logic of a small React kanban board. The rest of the board is markup.

- **The todo store** in `src/App.jsx` is an ordered sequence of todo records. It changes in four ways:
  - `addTodo` puts a new record in front.
  - `updateTodo` replaces every record with a given id.
  - `deleteTodo` drops every record with a given id.
  - `toggleComplete` flips `completed` on every record with a given id.
- **The three columns** (Todo, InProgress, Complete) are filters of that sequence by `status`.
- **The card** (`TodoList` in `src/components/TodoList.jsx`) holds local copies of a record's fields and two picker flags. It sends `updateTodo`/`deleteTodo` calls back to the store.

Files:

- `seqs.dfy` (module `Seqs`): `map` and `filter` on sequences, a subsequence predicate, and the general facts about them (filtering keeps order, keeps multiplicities, distributes over `+`).
- `store.dfy` (module `Store`): the record type, the four store operations as pure functions, the column projection, and the lemmas about them.
- `app.dfy` (module `App`): class `AppState`, holding the component's two hooks (`showTaskForm`, `todos`). Its methods replace the hooks' values with the `Store` functions' results. The methods about `todos` also keep id uniqueness whenever the `Store` lemmas allow it.
- `todo_card.dfy` (module `TodoCard`): class `Card`, holding the seven pieces of card state and the incoming record. Its handlers are methods that return the store call they emit, if any. This module also has `PriorityStyles` and the option lists.

The code does not enforce the following, and the model follows the code:

- **Ids are not unique by construction.** `Date.now()` can repeat, and a draft with its own `id` key overrides the clock. `Store.SameClockDuplicates` shows two same-millisecond creations sharing an id. Uniqueness (`Store.UniqueIds`) is therefore only a precondition.
- **Statuses are not forced into the three known values.** A record with another status appears in no column.
- **Delete is not blocked on a completed record by the store.** `deleteTodo` removes it. Only the card's button is disabled (`TodoCard.Card.ClickDeleteButton`).
- **Free-text edits are never sent to the store.** `updateTodo` payloads are built from the incoming record, not from the card's local copies.

## Model

| member | source | states |
|---|---|---|
| Store.Created | src/App.jsx:22 | the new record takes its id from the clock unless the supplied fields carry their own id, which then wins; every other field is the supplied one |
| Store.AddTodo | src/App.jsx:21-23 | the result is one longer, holds the new record at index 0 and the previous sequence unchanged as its tail |
| Store.AddTwiceMostRecentFirst | src/App.jsx:22 | creating A then B lists B before A, ahead of the previous records |
| Store.AddKeepsUniqueIds | src/App.jsx:21-23 | on a store with unique ids, adding keeps ids unique if and only if the new record's id is not already present |
| Store.SameClockDuplicates | src/App.jsx:22 | two drafts without an own id created at the same clock value share an id, and one delete of that id removes both |
| Store.UpdateTodo | src/App.jsx:25-27 | length is preserved; every record whose id matches becomes the supplied record wholesale (its own id unchecked); every other record is unchanged in place |
| Store.UpdateAbsent | src/App.jsx:25-27 | updating an id no record carries leaves the sequence exactly unchanged |
| Store.UpdateIdempotent | src/App.jsx:25-27 | applying the same update twice equals applying it once, for any supplied record |
| Store.UpdateAt | src/App.jsx:25-27 | with unique ids, updating the id at position k replaces that single slot and nothing else |
| Store.UpdateKeepsUniqueIds | src/App.jsx:25-27 | unique ids stay unique when the supplied record keeps the matched id or brings an unused one |
| Store.DeleteTodo | src/App.jsx:29-31 | no remaining record has the id, and every record without the id remains |
| Store.DeleteKeepsOrder | src/App.jsx:29-31 | the result is an order-preserving subsequence of the store; each record with the id has multiplicity 0, every other keeps its multiplicity |
| Store.DeleteAbsent | src/App.jsx:29-31 | deleting an id no record carries leaves the sequence exactly unchanged |
| Store.DeleteAt | src/App.jsx:29-31 | with unique ids, deleting the id at position k removes exactly that slot, so the length drops by one |
| Store.DeleteKeepsUniqueIds | src/App.jsx:29-31 | deleting never introduces a duplicate id |
| Store.ToggleComplete | src/App.jsx:33-37 | length is preserved; each record differs from its original at most in `completed`, which flips exactly when its id matches |
| Store.ToggleTwice | src/App.jsx:33-37 | toggling twice with the same id is the identity |
| Store.ToggleAbsent | src/App.jsx:33-37 | toggling an id no record carries leaves the sequence exactly unchanged |
| Store.Column | src/App.jsx:40-42 | a column holds only store records of its status, and every store record of that status is in it |
| Store.ColumnKeepsOrder | src/App.jsx:40-42 | a column is an order-preserving subsequence of the store, with each record of its status at its store multiplicity and every other record absent |
| Store.ColumnsPartition | src/App.jsx:40-42 | when every status is Todo, InProgress or Complete, the three columns' multisets add up to the store's and their lengths to its length |
| Store.ColumnOf | src/App.jsx:40-42 | a record is in a column if and only if its status is that column's, so a record with any other status is in none |
| Store.ToggleKeepsColumns | src/App.jsx:33-42 | toggling commutes with each column's filter, so completion never moves a record between columns |
| App.AppState.constructor | src/App.jsx:10-11 | the modal starts closed and the store empty |
| App.AppState.HandleCreateTaskClick | src/App.jsx:13-15 | the modal flag becomes true from any state, so the handler is idempotent; the store is untouched |
| App.AppState.HandleCloseModal | src/App.jsx:17-19 | the modal flag becomes false from any state, so the handler is idempotent; the store is untouched |
| App.AppState.AddTodo | src/App.jsx:21-23 | the store becomes the added sequence; unique ids stay unique when the new id is unused |
| App.AppState.UpdateTodo | src/App.jsx:25-27 | the store becomes the updated sequence; unique ids stay unique when the supplied record keeps the id or brings an unused one |
| App.AppState.DeleteTodo | src/App.jsx:29-31 | the store becomes the filtered sequence; unique ids stay unique |
| App.AppState.TodoTasks | src/App.jsx:40 | the Todo column holds exactly the current records whose status is Todo |
| App.AppState.InProgressTasks | src/App.jsx:41 | the InProgress column holds exactly the current records whose status is InProgress |
| App.AppState.CompletedTasks | src/App.jsx:42 | the Complete column holds exactly the current records whose status is Complete |
| App.AppState.ToggleComplete | src/App.jsx:33-37 | the store becomes the toggled sequence; unique ids stay unique |
| TodoCard.PriorityStyles | src/components/TodoList.jsx:51-62 | the badge class is non-empty exactly for Low, Medium and High, and empty for any other value |
| TodoCard.StatusOptionsAreColumns | src/components/TodoList.jsx:115 | the status picker offers exactly the three statuses the columns show |
| TodoCard.StatusPickMovesRecord | src/components/TodoList.jsx:24-31 | once the status picker's payload is applied to the store, the moved record is in the picked column, no record with its id is in any other column, and records with other ids are untouched |
| TodoCard.Card.constructor | src/components/TodoList.jsx:5-11 | local title, description, date, status and priority start equal to the record's; both picker flags start false |
| TodoCard.Card.ReceiveTodo | src/components/TodoList.jsx:5-9 | a new incoming record replaces the prop only; the local copies keep their values |
| TodoCard.Card.HandlePriorityChange | src/components/TodoList.jsx:15-22 | local priority becomes the choice and its picker closes; the emitted update is the incoming record with only the priority replaced |
| TodoCard.Card.HandleStatusChange | src/components/TodoList.jsx:24-31 | local status becomes the choice and its picker closes; the emitted update is the incoming record with only the status replaced |
| TodoCard.Card.HandleDelete | src/components/TodoList.jsx:33-35 | emits a delete of the incoming record's id and changes no state |
| TodoCard.Card.ClickDeleteButton | src/components/TodoList.jsx:152-158 | the button emits the delete only when the record is not completed, and nothing otherwise |
| TodoCard.Card.ClickPriorityButton | src/components/TodoList.jsx:70-74 | the priority flag flips when the record is not completed and is unchanged when it is; no other state changes |
| TodoCard.Card.ClickStatusButton | src/components/TodoList.jsx:104-108 | the status flag flips when the record is not completed and is unchanged when it is; no other state changes |
| TodoCard.Card.ClickPriorityOption | src/components/TodoList.jsx:78-88 | a listed priority can be picked only while its picker is open; a completed card whose pickers were shut emits no update |
| TodoCard.Card.ClickStatusOption | src/components/TodoList.jsx:112-124 | a listed status can be picked only while its picker is open; a completed card whose pickers were shut emits no update |
| TodoCard.Card.HandleClickOutside | src/components/TodoList.jsx:38-45 | each flag is forced false by a press whose target is inside no element of that picker's class, on any card; it keeps its value otherwise and is never set true |
| TodoCard.Card.EditTitle | src/components/TodoList.jsx:95-101 | only the local title changes, and only when the record is not completed; nothing is emitted |
| TodoCard.Card.EditDescription | src/components/TodoList.jsx:129-134 | only the local description changes, and only when the record is not completed; nothing is emitted |
| TodoCard.Card.EditDate | src/components/TodoList.jsx:142-148 | only the local date changes, and only when the record is not completed; nothing is emitted |

## Left out

- Rendering: JSX markup, Tailwind class strings and layout. Of `getPriorityStyles` the model keeps the three class strings and the "listed priority gives a non-empty class, anything else gives the empty string" shape. The `priority === priority` and `status === status` bold-class comparisons are styling and always true.
- React itself: hook scheduling, batching of setters, and the `TodoProvider` context. The todo context module is not part of this model. Calls the card makes into it are returned as `ContextCall` values.
- The clock: `Date.now()` becomes the parameter `now` of `AddTodo`.
- DOM listeners: registering and removing the `mousedown` listener, and `event.target.closest`. Each mousedown is given as two booleans: whether the target lies inside some `.priority-dropdown` element, and whether it lies inside some `.status-dropdown` element, on any card of the page. Every card renders both regions, so a press inside one card's priority region keeps every card's open priority picker open: pickers of the same kind on different cards do not close each other.
- Remounting: a card remounts when its record moves to another column (its `key` is the id). This is not modelled. A card is modelled from one mount onward, and `ReceiveTodo` covers re-renders with a new record.
- Missing JavaScript fields: a draft is modelled with every field present. A missing field (`undefined`) or an own `id` key whose value is `undefined` is not modelled, so `completed` is always a boolean. `createdAt` and any other extra fields are not modelled either, because no logic here reads them.
- The modal overlay, `ActionList` (the creation form), `Header`, and any backend-synced store variant are not part of this model.
- TodoCard.Card.ReceiveTodo: keeps the "pickers shut when completed" invariant only when the new record is not completed or both pickers are already shut. This matches the source: a record completed elsewhere while a picker is open leaves that picker open.
