/** Properties that relate several calls of the store's actions, the store driven
    by a sequence of user actions, and worked scenarios. */
module TodoStoreProps {
  import opened Wrappers
  import opened Seqs
  import opened Text
  import opened TodoStore

  // ---------------------------------------------------------------------------
  // The filtered view
  // ---------------------------------------------------------------------------

  /** The filtered view holds every visible task as often as the list does, and no
      other task. */
  lemma FilteredTodosCounts(st: State)
    ensures forall t :: multiset(FilteredTodos(st))[t] ==
              if Visible(t, st.search, st.filter) then multiset(st.todos)[t] else 0
  {
    var vis := (t: Todo) => Visible(t, st.search, st.filter);
    KeepKeep((t: Todo) => MatchesStatus(t, st.filter), (t: Todo) => MatchesSearch(t, st.search), vis, st.todos);
    KeepMultiset(vis, st.todos);
  }

  /** The filtered view is the ONLY order-preserving subsequence of the list that holds
      exactly its visible tasks, each as often as it occurs in the list. */
  lemma FilteredTodosUnique(st: State, r: seq<Todo>)
    requires IsSubseq(r, st.todos)
    requires forall t :: multiset(r)[t] ==
               if Visible(t, st.search, st.filter) then multiset(st.todos)[t] else 0
    ensures r == FilteredTodos(st)
  {
    var vis := (t: Todo) => Visible(t, st.search, st.filter);
    KeepUnique(vis, st.todos, r);
    KeepKeep((t: Todo) => MatchesStatus(t, st.filter), (t: Todo) => MatchesSearch(t, st.search), vis, st.todos);
  }

  /** When every task matches the search text, only the status filter restricts the list. */
  lemma SearchMatchesAll(st: State)
    requires forall i :: 0 <= i < |st.todos| ==> MatchesSearch(st.todos[i], st.search)
    ensures FilteredTodos(st) == Keep((t: Todo) => MatchesStatus(t, st.filter), st.todos)
  {
    KeepAll((t: Todo) => MatchesSearch(t, st.search), st.todos);
  }

  /** With an empty search text only the status filter restricts the list. */
  lemma EmptySearchOnlyStatus(st: State)
    requires st.search == ""
    ensures FilteredTodos(st) == Keep((t: Todo) => MatchesStatus(t, st.filter), st.todos)
  {
    forall i | 0 <= i < |st.todos|
      ensures MatchesSearch(st.todos[i], st.search)
    {
      IncludesEmpty(Lower(st.todos[i].title));
    }
    SearchMatchesAll(st);
  }

  /** With a filter value other than "completed" or "pending" only the search restricts. */
  lemma OtherFilterOnlySearch(st: State)
    requires st.filter != "completed" && st.filter != "pending"
    ensures FilteredTodos(st) == Keep((t: Todo) => MatchesSearch(t, st.search), st.todos)
  {
    var searched := Keep((t: Todo) => MatchesSearch(t, st.search), st.todos);
    KeepAll((t: Todo) => MatchesStatus(t, st.filter), searched);
  }

  /** The search ignores the case of the search text. */
  lemma SearchIgnoresCase(st: State, q: string)
    ensures FilteredTodos(SetSearch(st, Lower(q))) == FilteredTodos(SetSearch(st, q))
  {
    LowerIdempotent(q);
    KeepExt((t: Todo) => MatchesSearch(t, Lower(q)), (t: Todo) => MatchesSearch(t, q), st.todos);
  }

  /** Upper- and lower-case spellings of a search text match the same tasks. */
  lemma SearchIgnoresCaseOne(t: Todo, q: string)
    ensures MatchesSearch(t, q) == MatchesSearch(t, Lower(q))
  {
    LowerIdempotent(q);
  }

  /** A task whose title contains the search text verbatim matches the search. */
  lemma VerbatimTitleMatches(t: Todo, q: string, i: int)
    requires OccursAt(t.title, q, i)
    ensures MatchesSearch(t, q)
  {
    OccursLower(t.title, q, i);
  }

  /** A newly added task heads the filtered view when it is visible and is absent
      from it otherwise; the rest of the view is what it was. */
  lemma AddTodoFiltered(st: State, title: string, now: int)
    ensures Visible(Todo(now, title, false), st.search, st.filter) ==>
              FilteredTodos(AddTodo(st, title, now)) == [Todo(now, title, false)] + FilteredTodos(st)
    ensures !Visible(Todo(now, title, false), st.search, st.filter) ==>
              FilteredTodos(AddTodo(st, title, now)) == FilteredTodos(st)
  {
  }

  // ---------------------------------------------------------------------------
  // Mutations
  // ---------------------------------------------------------------------------

  /** Editing the same task to the same values twice is editing it once. */
  lemma EditTodoIdempotent(st: State, id: int, title: string, completed: bool)
    ensures EditTodo(EditTodo(st, id, title, completed), id, title, completed)
         == EditTodo(st, id, title, completed)
  {
    var once := EditTodo(st, id, title, completed);
    match FindTodo(st.todos, id)
    case None =>
    case Some(i) =>
      assert once.todos == st.todos[i := Todo(id, title, completed)];
      assert FirstWithId(once.todos, id, i);
      var twice := EditTodo(once, id, title, completed);
      assert twice.todos == once.todos[i := Todo(id, title, completed)] == once.todos;
  }

  /** Toggling a task is editing it to its own title with the opposite status. */
  lemma ToggleIsEdit(st: State, id: int, i: int)
    requires FirstWithId(st.todos, id, i)
    ensures ToggleTodo(st, id) == EditTodo(st, id, st.todos[i].title, !st.todos[i].completed)
  {
  }

  /** Toggling the same id twice restores the list; on a hit the snapshot is left
      holding it, on a miss nothing changed at all. */
  lemma ToggleTwice(st: State, id: int)
    ensures ToggleTodo(ToggleTodo(st, id), id).todos == st.todos
    ensures HasId(st.todos, id) ==> ToggleTodo(ToggleTodo(st, id), id) == Save(st)
    ensures !HasId(st.todos, id) ==> ToggleTodo(ToggleTodo(st, id), id) == st
    ensures Persisted(st) ==> ToggleTodo(ToggleTodo(st, id), id) == st
  {
    var once := ToggleTodo(st, id);
    match FindTodo(st.todos, id)
    case None =>
    case Some(i) =>
      assert FirstWithId(once.todos, id, i);
      assert ToggleTodo(once, id).todos == st.todos;
  }

  /** Deleting an id a second time changes nothing. */
  lemma DeleteTodoIdempotent(st: State, id: int)
    ensures DeleteTodo(DeleteTodo(st, id), id) == DeleteTodo(st, id)
  {
    var once := DeleteTodo(st, id);
    KeepAll((t: Todo) => t.id != id, once.todos);
  }

  /** Deleting the id of a task just added with a fresh id undoes the addition,
      apart from the snapshot, which now holds the list. */
  lemma DeleteUndoesAdd(st: State, title: string, now: int)
    requires !HasId(st.todos, now)
    ensures DeleteTodo(AddTodo(st, title, now), now) == Save(st)
  {
    var added := AddTodo(st, title, now);
    var keep := (t: Todo) => t.id != now;
    assert added.todos[1..] == st.todos;
    KeepAll(keep, st.todos);
  }

  // ---------------------------------------------------------------------------
  // Hydration
  // ---------------------------------------------------------------------------

  /** Once the list is persisted, `fetchTodos` adopts it and changes nothing, so no
      further remote fetch happens. */
  lemma FetchWhenPersisted(st: State, response: seq<Todo>)
    requires Persisted(st)
    ensures FetchTodos(st, response) == st
  {
  }

  /** A second `fetchTodos` after a first one takes the stored branch and changes nothing. */
  lemma FetchTodosTwice(st: State, first: seq<Todo>, second: seq<Todo>)
    ensures FetchTodos(FetchTodos(st, first), second) == FetchTodos(st, first)
  {
    FetchWhenPersisted(FetchTodos(st, first), second);
  }

  // ---------------------------------------------------------------------------
  // The store driven by user actions
  // ---------------------------------------------------------------------------

  /** Every call the view can make on the store. */
  datatype Action =
    | Fetch(response: seq<Todo>)
    | Add(title: string, now: int)
    | Edit(id: int, newTitle: string, newCompleted: bool)
    | Delete(id: int)
    | Toggle(id: int)
    | Search(text: string)
    | Filter(kind: string)
    | Select(todo: Todo)
    | ClearSelection

  /** Performs one action. Every action keeps the snapshot equal to the list once it is,
      and the list-changing ones that always save make it so. */
  function Apply(st: State, a: Action): (r: State)
    ensures Persisted(st) ==> Persisted(r)
    ensures st.storage.Some? ==> r.storage.Some?
    ensures a.Fetch? || a.Add? || a.Delete? ==> Persisted(r)
    ensures a.Search? || a.Filter? || a.Select? || a.ClearSelection? ==>
              r.todos == st.todos && r.storage == st.storage
  {
    match a
    case Fetch(response) => FetchTodos(st, response)
    case Add(title, now) => AddTodo(st, title, now)
    case Edit(id, title, completed) => EditTodo(st, id, title, completed)
    case Delete(id) => DeleteTodo(st, id)
    case Toggle(id) => ToggleTodo(st, id)
    case Search(text) => SetSearch(st, text)
    case Filter(kind) => SetFilter(st, kind)
    case Select(todo) => SetSelectedTodo(st, todo)
    case ClearSelection => ClearSelectedTodo(st)
  }

  /** Performs the actions in order. A persisted store stays persisted: after any
      sequence of actions the snapshot holds exactly the in-memory list. */
  function Run(st: State, actions: seq<Action>): (r: State)
    ensures Persisted(st) ==> Persisted(r)
    ensures st.storage.Some? ==> r.storage.Some?
    decreases |actions|
  {
    if |actions| == 0 then st else Run(Apply(st, actions[0]), actions[1..])
  }

  /** The application's life: start from whatever storage holds, hydrate, then take any
      user actions. The snapshot ends up equal to the list, and a later hydration
      changes nothing. */
  lemma SessionPersisted(stored: Option<seq<Todo>>, response: seq<Todo>, actions: seq<Action>, later: seq<Todo>)
    ensures Persisted(Run(FetchTodos(Init(stored), response), actions))
    ensures var st := Run(FetchTodos(Init(stored), response), actions);
            FetchTodos(st, later) == st
  {
  }

  // ---------------------------------------------------------------------------
  // Worked scenarios
  // ---------------------------------------------------------------------------

  /** Empty storage and a seed list of 25 tasks: 20 tasks are adopted and saved. */
  lemma SeedScenario(response: seq<Todo>)
    requires |response| == 25
    ensures var st := FetchTodos(Init(None), response);
            |st.todos| == 20 && st.todos == response[..20] && st.storage == Some(response[..20])
  {
  }

  /** Adding "buy milk" to a list of two: three tasks, the new unfinished one first, saved. */
  lemma AddScenario(st: State, now: int)
    requires |st.todos| == 2
    ensures var st' := AddTodo(st, "buy milk", now);
            && |st'.todos| == 3
            && st'.todos[0] == Todo(now, "buy milk", false)
            && st'.storage == Some(st'.todos)
  {
  }

  /** Filter "pending", search "a" over Apple (pending), Banana (done) and Avocado
      (pending): the view is Apple, Avocado. */
  lemma PendingSearchScenario()
    ensures var apple := Todo(1, "Apple", false);
            var banana := Todo(2, "Banana", true);
            var avocado := Todo(3, "Avocado", false);
            var st := SetSearch(SetFilter(Init(Some([apple, banana, avocado])), "pending"), "a");
            FilteredTodos(st) == [apple, avocado]
  {
    var apple := Todo(1, "Apple", false);
    var banana := Todo(2, "Banana", true);
    var avocado := Todo(3, "Avocado", false);
    ScenarioTitlesMatch();
    var st := SetSearch(SetFilter(Init(Some([apple, banana, avocado])), "pending"), "a");
    PendingViewOfThree(st, apple, banana, avocado);
  }

  /** The same scenario for any three tasks that all match the search text. */
  lemma PendingViewOfThree(st: State, a: Todo, b: Todo, c: Todo)
    requires st.todos == [a, b, c] && st.filter == "pending"
    requires MatchesSearch(a, st.search) && MatchesSearch(b, st.search) && MatchesSearch(c, st.search)
    requires !a.completed && b.completed && !c.completed
    ensures FilteredTodos(st) == [a, c]
  {
    SearchMatchesAll(st);
    PendingKeepOfThree(st.filter, a, b, c);
  }

  lemma PendingKeepOfThree(filter: string, a: Todo, b: Todo, c: Todo)
    requires filter == "pending"
    requires !a.completed && b.completed && !c.completed
    ensures Keep((t: Todo) => MatchesStatus(t, filter), [a, b, c]) == [a, c]
  {
    assert [a, b, c][1..] == [b, c];
    assert [b, c][1..] == [c];
    assert Keep((t: Todo) => MatchesStatus(t, filter), [c]) == [c];
  }

  /** "Apple", "Banana" and "Avocado" all contain "a" once case is ignored. */
  lemma ScenarioTitlesMatch()
    ensures MatchesSearch(Todo(1, "Apple", false), "a")
    ensures MatchesSearch(Todo(2, "Banana", true), "a")
    ensures MatchesSearch(Todo(3, "Avocado", false), "a")
  {
    assert Lower("A") == "a" == Lower("a");
    VerbatimTitleMatches(Todo(1, "Apple", false), "A", 0);
    VerbatimTitleMatches(Todo(2, "Banana", true), "a", 1);
    VerbatimTitleMatches(Todo(3, "Avocado", false), "A", 0);
  }

  /** Deleting the selected task leaves the selection in place (it goes stale). */
  lemma DeleteKeepsSelection(st: State, todo: Todo)
    ensures DeleteTodo(SetSelectedTodo(st, todo), todo.id).selectedTodo == Some(todo)
    ensures !HasId(DeleteTodo(SetSelectedTodo(st, todo), todo.id).todos, todo.id)
  {
  }
}
