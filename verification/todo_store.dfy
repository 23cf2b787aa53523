/** The task-list store: its state, the filtered view derived from it and its actions.
    Every action is a pure function from the state before to the state after; the
    browser's `localStorage["todos"]` snapshot is the `storage` field of the state. */
module TodoStore {
  import opened Wrappers
  import opened Seqs
  import opened Text

  /** One task. `id` is the creation timestamp for tasks added locally. */
  datatype Todo = Todo(id: int, title: string, completed: bool)

  datatype State = State(
    todos: seq<Todo>,
    search: string,
    filter: string,
    selectedTodo: Option<Todo>,
    storage: Option<seq<Todo>>)

  /** How many tasks of the remote seed list are kept. */
  const SeedLimit: nat := 20

  /** The durable snapshot holds exactly the in-memory list. */
  predicate Persisted(st: State) {
    st.storage == Some(st.todos)
  }

  /** Some task in `todos` carries `id`. */
  predicate HasId(todos: seq<Todo>, id: int) {
    exists i :: 0 <= i < |todos| && todos[i].id == id
  }

  /** `i` is the first index whose task carries `id`. */
  predicate FirstWithId(todos: seq<Todo>, id: int, i: int) {
    && 0 <= i < |todos|
    && todos[i].id == id
    && forall j :: 0 <= j < i ==> todos[j].id != id
  }

  /** Only the list and the snapshot may differ between `a` and `b`. */
  predicate SameView(a: State, b: State) {
    a.search == b.search && a.filter == b.filter && a.selectedTodo == b.selectedTodo
  }

  // ---------------------------------------------------------------------------
  // State and derived view
  // ---------------------------------------------------------------------------

  /** The state a fresh store starts in, given what storage holds at start-up:
      the stored list if there is one, otherwise the empty list. */
  function Init(stored: Option<seq<Todo>>): (st: State)
    ensures st.storage == stored
    ensures stored.Some? ==> Persisted(st)
    ensures stored.None? ==> st.todos == []
    ensures st.search == "" && st.filter == "all" && st.selectedTodo == None
  {
    State(stored.GetOr([]), "", "all", None, stored)
  }

  /** The title contains the search text, ignoring case. */
  predicate MatchesSearch(t: Todo, search: string) {
    Includes(Lower(t.title), Lower(search))
  }

  /** "completed" keeps finished tasks, "pending" keeps unfinished ones,
      and any other filter value keeps everything. */
  predicate MatchesStatus(t: Todo, filter: string) {
    if filter == "completed" then t.completed
    else if filter == "pending" then !t.completed
    else true
  }

  /** A task shows in the filtered view. */
  predicate Visible(t: Todo, search: string, filter: string) {
    MatchesSearch(t, search) && MatchesStatus(t, filter)
  }

  /** The `filteredTodos` getter: the search filter, then the status filter. The result
      is an order-preserving subsequence of the list holding exactly its visible tasks. */
  function FilteredTodos(st: State): (r: seq<Todo>)
    ensures IsSubseq(r, st.todos)
    ensures forall i :: 0 <= i < |r| ==> Visible(r[i], st.search, st.filter)
    ensures forall i :: 0 <= i < |st.todos| && Visible(st.todos[i], st.search, st.filter) ==>
              st.todos[i] in r
  {
    var bySearch := (t: Todo) => MatchesSearch(t, st.search);
    var byStatus := (t: Todo) => MatchesStatus(t, st.filter);
    KeepKeep(byStatus, bySearch, t => Visible(t, st.search, st.filter), st.todos);
    Keep(byStatus, Keep(bySearch, st.todos))
  }

  // ---------------------------------------------------------------------------
  // Persistence and hydration
  // ---------------------------------------------------------------------------

  /** `saveTodosToLocalStorage`: overwrite the snapshot with the whole list. */
  function Save(st: State): (r: State)
    ensures Persisted(r)
    ensures r.todos == st.todos && SameView(r, st)
  {
    st.(storage := Some(st.todos))
  }

  /** `fetchTodos`: adopt the stored list when there is one (even an empty one);
      otherwise keep the first `SeedLimit` tasks of the remote `response` and save them. */
  function FetchTodos(st: State, response: seq<Todo>): (r: State)
    ensures Persisted(r) && SameView(r, st)
    ensures st.storage.Some? ==> r.todos == st.storage.value && r.storage == st.storage
    ensures st.storage.None? ==> r.todos <= response
    ensures st.storage.None? && |response| <= SeedLimit ==> r.todos == response
    ensures st.storage.None? && |response| > SeedLimit ==> |r.todos| == SeedLimit
  {
    match st.storage
    case Some(stored) => st.(todos := stored)
    case None =>
      var n := if |response| < SeedLimit then |response| else SeedLimit;
      Save(st.(todos := response[..n]))
  }

  // ---------------------------------------------------------------------------
  // Mutations
  // ---------------------------------------------------------------------------

  /** `addTodo`: a new unfinished task with id `now` goes in front of the list,
      and the list is saved. */
  function AddTodo(st: State, title: string, now: int): (r: State)
    ensures |r.todos| == |st.todos| + 1
    ensures r.todos[0] == Todo(now, title, false) && r.todos[1..] == st.todos
    ensures Persisted(r) && SameView(r, st)
  {
    Save(st.(todos := [Todo(now, title, false)] + st.todos))
  }

  /** `Array.prototype.find` by id, as an index: the first task carrying `id`. */
  function FindTodo(todos: seq<Todo>, id: int): (r: Option<nat>)
    ensures r.Some? ==> FirstWithId(todos, id, r.value)
    ensures r.None? <==> !HasId(todos, id)
    decreases |todos|
  {
    if |todos| == 0 then None
    else if todos[0].id == id then Some(0)
    else
      match FindTodo(todos[1..], id)
      case Some(i) => Some(i + 1)
      case None => None
  }

  /** `editTodo`: the first task carrying `id` gets the new title and status and the list
      is saved; when no task carries `id` nothing changes, storage included. */
  function EditTodo(st: State, id: int, title: string, completed: bool): (r: State)
    ensures SameView(r, st) && |r.todos| == |st.todos|
    ensures !HasId(st.todos, id) ==> r == st
    ensures forall i :: FirstWithId(st.todos, id, i) ==>
              && r.todos == st.todos[i := Todo(id, title, completed)]
              && Persisted(r)
  {
    match FindTodo(st.todos, id)
    case None => st
    case Some(i) =>
      var t := st.todos[i];
      Save(st.(todos := st.todos[i := t.(title := title, completed := completed)]))
  }

  /** `deleteTodo`: every task carrying `id` goes, the others keep their order,
      and the list is saved even when nothing was removed. */
  function DeleteTodo(st: State, id: int): (r: State)
    ensures !HasId(r.todos, id)
    ensures IsSubseq(r.todos, st.todos)
    ensures forall t :: multiset(r.todos)[t] == if t.id == id then 0 else multiset(st.todos)[t]
    ensures |r.todos| <= |st.todos|
    ensures |r.todos| == |st.todos| <==> !HasId(st.todos, id)
    ensures Persisted(r) && SameView(r, st)
  {
    var keep := (t: Todo) => t.id != id;
    KeepAll(keep, st.todos);
    KeepMultiset(keep, st.todos);
    Save(st.(todos := Keep(keep, st.todos)))
  }

  /** `toggleTodo`: the first task carrying `id` flips its status and the list is saved;
      when no task carries `id` nothing changes, storage included. */
  function ToggleTodo(st: State, id: int): (r: State)
    ensures SameView(r, st) && |r.todos| == |st.todos|
    ensures !HasId(st.todos, id) ==> r == st
    ensures forall i :: FirstWithId(st.todos, id, i) ==>
              && r.todos == st.todos[i := st.todos[i].(completed := !st.todos[i].completed)]
              && Persisted(r)
  {
    match FindTodo(st.todos, id)
    case None => st
    case Some(i) =>
      var t := st.todos[i];
      Save(st.(todos := st.todos[i := t.(completed := !t.completed)]))
  }

  // ---------------------------------------------------------------------------
  // View-state setters: none of them touches the list or the snapshot
  // ---------------------------------------------------------------------------

  function SetSearch(st: State, text: string): (r: State)
    ensures r.search == text
    ensures r.todos == st.todos && r.storage == st.storage
    ensures r.filter == st.filter && r.selectedTodo == st.selectedTodo
  {
    st.(search := text)
  }

  function SetFilter(st: State, kind: string): (r: State)
    ensures r.filter == kind
    ensures r.todos == st.todos && r.storage == st.storage
    ensures r.search == st.search && r.selectedTodo == st.selectedTodo
  {
    st.(filter := kind)
  }

  function SetSelectedTodo(st: State, todo: Todo): (r: State)
    ensures r.selectedTodo == Some(todo)
    ensures r.todos == st.todos && r.storage == st.storage
    ensures r.search == st.search && r.filter == st.filter
  {
    st.(selectedTodo := Some(todo))
  }

  function ClearSelectedTodo(st: State): (r: State)
    ensures r.selectedTodo == None
    ensures r.todos == st.todos && r.storage == st.storage
    ensures r.search == st.search && r.filter == st.filter
  {
    st.(selectedTodo := None)
  }
}
