# Task-list store, modelled in Dafny

This project models the Pinia store of a small browser to-do application
(`src/stores/todoStore.js`). The store holds an ordered list of tasks
(`id`, `title`, `completed`), a search text, a status filter and an optional
selected task. It derives a filtered view from them and offers actions that
change the list and write it back to the browser's local storage under the key
`todos`.

Every action is modelled as a pure function from the state before to the state
after. The local-storage snapshot is a state field
(`storage: Option<seq<Todo>>`, `None` when the key is missing). The clock value
of `Date.now()` and the remote seed list are parameters.

Files:

- `wrappers.dfy`: `Option`, standing in for JavaScript's `null`.
- `seqs.dfy`: `Keep`, an order-preserving filter (`Array.prototype.filter`). It comes
  with a subsequence predicate, a uniqueness lemma and composition lemmas.
- `text.dfy`: ASCII `toLowerCase` and `String.prototype.includes`, with a reference
  definition of "occurs at index i".
- `todo_store.dfy`: the state, the `filteredTodos` getter and every action.
- `todo_store_props.dfy`: properties that relate several calls. It also holds a
  dispatcher for all actions with the invariant "the snapshot equals the list",
  and worked scenarios.

Facts about the code that the model keeps:

- `filter` is any string; only `"completed"` and `"pending"` restrict the list
  (src/stores/todoStore.js:17-20).
- `deleteTodo` removes every task carrying the id (src/stores/todoStore.js:61).
- `fetchTodos` reads storage on every call, and an empty array counts as present
  (src/stores/todoStore.js:31-32).
- `editTodo` and `toggleTodo` change only the first task carrying the id and skip the
  save on a miss (src/stores/todoStore.js:53-58, 65-69).

## Model

| member | source | states |
|---|---|---|
| `TodoStore.Init` | src/stores/todoStore.js:5-10 | the start state adopts the stored list when the key exists and is empty otherwise; search is empty, filter is "all", nothing is selected |
| `TodoStore.FilteredTodos` | src/stores/todoStore.js:12-22 | the view is an order-preserving subsequence of the list; every element is `Visible`: `MatchesSearch` (title includes the search, both lower-cased, lines 14-16) and `MatchesStatus` ("completed" / "pending" restrict, any other value passes, lines 17-21); every visible task appears |
| `TodoStoreProps.FilteredTodosCounts` | src/stores/todoStore.js:12-22 | the view holds each visible task as often as the list does and no other task |
| `TodoStoreProps.FilteredTodosUnique` | src/stores/todoStore.js:12-22 | any order-preserving subsequence holding exactly the visible tasks with their multiplicities equals the view, so the view is fully determined |
| `TodoStoreProps.SearchMatchesAll` | src/stores/todoStore.js:13-21 | when every title matches the search, the view is the list filtered by status alone |
| `TodoStoreProps.EmptySearchOnlyStatus` | src/stores/todoStore.js:14-16 | an empty search text adds no restriction; only the status filter applies |
| `TodoStoreProps.OtherFilterOnlySearch` | src/stores/todoStore.js:17-21 | a filter value other than "completed" or "pending" adds no restriction; only the search applies |
| `TodoStoreProps.SearchIgnoresCase` | src/stores/todoStore.js:14-16 | searching for a text and for its lower-cased form give the same view |
| `TodoStoreProps.SearchIgnoresCaseOne` | src/stores/todoStore.js:15 | one task matches a search text exactly when it matches the lower-cased text |
| `TodoStoreProps.VerbatimTitleMatches` | src/stores/todoStore.js:15 | a title that contains the search text verbatim matches the search |
| `Text.Lower` | src/stores/todoStore.js:15 | lower-casing keeps the length, maps each character on its own and leaves no upper-case letter |
| `Text.LowerIdempotent` | src/stores/todoStore.js:15 | lower-casing twice equals lower-casing once |
| `Text.OccursLower` | src/stores/todoStore.js:15 | an occurrence survives lower-casing both strings, at the same index |
| `Text.Includes` | src/stores/todoStore.js:15 | `includes` is true exactly when the text occurs at some index |
| `Text.IncludesEmpty` | src/stores/todoStore.js:15 | the empty text is included in every title |
| `Seqs.Keep` | src/stores/todoStore.js:13-21 | filtering yields an order-preserving subsequence whose elements all pass, and every passing element of the input appears in it |
| `Seqs.KeepMultiset` | src/stores/todoStore.js:13-21 | filtering keeps each passing element as often as it occurs and drops every failing one |
| `Seqs.KeepUnique` | src/stores/todoStore.js:13-21 | the filter result is the only subsequence with exactly the passing elements and their multiplicities |
| `Seqs.KeepKeep` | src/stores/todoStore.js:13-21 | the search filter followed by the status filter equals one filter by the conjunction |
| `Seqs.KeepAll` | src/stores/todoStore.js:61 | filtering keeps the length exactly when every element passes, and then returns the sequence itself |
| `TodoStore.Save` | src/stores/todoStore.js:26-28 | after saving, the snapshot equals the list; the list and the view state are untouched |
| `TodoStore.FetchTodos` | src/stores/todoStore.js:29-42 | a stored list, even an empty one, is adopted and storage is kept; otherwise the list becomes a prefix of the response of length min(20, its length) and is saved |
| `TodoStoreProps.FetchWhenPersisted` | src/stores/todoStore.js:31-33 | once the snapshot equals the list, fetching changes nothing, so no remote fetch happens |
| `TodoStoreProps.FetchTodosTwice` | src/stores/todoStore.js:29-42 | a second fetch after any first one leaves the state as the first left it |
| `TodoStoreProps.SeedScenario` | src/stores/todoStore.js:36-40 | with no stored list and a 25-task response, 20 tasks are adopted and saved |
| `TodoStore.AddTodo` | src/stores/todoStore.js:43-51 | the list grows by one; the new unfinished task with the given title and id comes first and the old list follows; the list is saved; the view state is kept |
| `TodoStoreProps.AddTodoFiltered` | src/stores/todoStore.js:43-51 | a visible new task heads the view with the old view behind it; an invisible one leaves the view unchanged |
| `TodoStoreProps.AddScenario` | src/stores/todoStore.js:43-51 | adding "buy milk" to two tasks gives three, the new unfinished one first, and saves them |
| `TodoStore.FindTodo` | src/stores/todoStore.js:53 | the lookup returns the first index carrying the id, and returns nothing exactly when no task carries it |
| `TodoStore.EditTodo` | src/stores/todoStore.js:52-59 | only the first task carrying the id gets the new title and status, the length is kept and the list is saved; on a miss the state, storage included, is unchanged |
| `TodoStoreProps.EditTodoIdempotent` | src/stores/todoStore.js:52-59 | repeating the same edit changes nothing more |
| `TodoStore.DeleteTodo` | src/stores/todoStore.js:60-63 | no remaining task carries the id; the survivors are a subsequence holding every other task with its multiplicity; the length is kept exactly when the id was absent; the list is always saved |
| `TodoStoreProps.DeleteTodoIdempotent` | src/stores/todoStore.js:60-63 | deleting the same id twice equals deleting it once |
| `TodoStoreProps.DeleteUndoesAdd` | src/stores/todoStore.js:43-63 | deleting the fresh id of a task just added restores the list, saved |
| `TodoStoreProps.DeleteKeepsSelection` | src/stores/todoStore.js:60-63 | deleting the selected task leaves the (now stale) selection in place |
| `TodoStore.ToggleTodo` | src/stores/todoStore.js:64-70 | only the first task carrying the id flips its status and the list is saved; on a miss the state, storage included, is unchanged |
| `TodoStoreProps.ToggleIsEdit` | src/stores/todoStore.js:52-70 | toggling equals editing the first match to its own title with the opposite status |
| `TodoStoreProps.ToggleTwice` | src/stores/todoStore.js:64-70 | toggling the same id twice restores the list; a persisted state comes back unchanged |
| `TodoStore.SetSearch` | src/stores/todoStore.js:71-73 | only the search text changes |
| `TodoStore.SetFilter` | src/stores/todoStore.js:74-76 | only the filter changes |
| `TodoStore.SetSelectedTodo` | src/stores/todoStore.js:77-79 | only the selection changes, to the given task |
| `TodoStore.ClearSelectedTodo` | src/stores/todoStore.js:80-82 | only the selection changes, to none |
| `TodoStoreProps.Apply` | src/stores/todoStore.js:24-83 | every action keeps the snapshot equal to the list once it is; fetch, add and delete always establish that; the setters touch neither list nor storage |
| `TodoStoreProps.Run` | src/stores/todoStore.js:24-83 | a persisted store stays persisted through any sequence of actions, and storage once present stays present |
| `TodoStoreProps.SessionPersisted` | src/stores/todoStore.js:5-83 | after start-up, hydration and any actions, the snapshot equals the list and a later fetch changes nothing |
| `TodoStoreProps.PendingSearchScenario` | src/stores/todoStore.js:12-22 | filter "pending" with search "a" over Apple, Banana (done) and Avocado shows Apple, Avocado |
| `TodoStoreProps.PendingViewOfThree` | src/stores/todoStore.js:12-22 | for any three tasks matching the search, with the middle one done and the others pending, the pending view drops the middle one |

## Left out

- `src/main.js`: application bootstrap (Vue app, plugins, icons, mount) with no logic.
- `src/router/index.js`: the dashboard guard is one branch on `isAuthenticated()`, and
  that predicate is defined in a file that is not part of this model.
- The HTTP request of `fetchTodos`: its result is the `response` parameter. The network
  failure path is not modelled; a rejected request leaves the state unchanged in the code.
  The seed objects' extra fields (`userId`) are dropped.
- JSON serialization through local storage: the snapshot is held as a list directly.
  In the code any falsy parsed value (`null`, `0`, `false`, `""`) counts as "no list"
  (src/stores/todoStore.js:6 and 32); the model has only a list or no snapshot.
- `Date.now()`: the id is the `now` parameter. Id uniqueness is neither assumed nor
  enforced, as in the code; duplicate ids are handled as the code handles them.
- Asynchrony and Pinia reactivity: each action is one synchronous state transition.
  So the model does not show that an action run while the seed request of `fetchTodos`
  is pending is overwritten when the response arrives (src/stores/todoStore.js:39-40).
- Text.Lower: maps only ASCII `A`-`Z`. Full Unicode `toLowerCase`, which can change a
  string's length, is not modelled. Strings are sequences of Unicode scalar values, not
  UTF-16 code units, so a lone surrogate cannot be represented and `includes` matching
  half of a surrogate pair is not modelled.
- Storage exceptions: `setItem` (src/stores/todoStore.js:27) and `JSON.parse`
  (src/stores/todoStore.js:6, 31) can throw, for example on a full quota or a corrupt
  stored value. Every action changes the list before it saves, so in the code a failed
  save leaves list and snapshot different and the action rejects. The model's `Save`
  always succeeds, so `TodoStoreProps.Run` and `TodoStoreProps.SessionPersisted`
  describe sessions in which every write succeeds.
- Object aliasing: in the code `selectedTodo` may be the same object as a list element
  that `editTodo` or `toggleTodo` mutates in place. The model keeps the selection as a
  plain value, so such edits do not reach it.
- `setSelectedTodo(null)`: the model's setter takes a task; clearing goes through
  `ClearSelectedTodo`.
