/**
 * The `todos` slice of the store: a normalised entity table (to-dos by id
 * plus the ordered list of ids), the loading flags and the selected id, and
 * the reducer that computes the next state from the previous one and an
 * action.
 */
module TodoReducer {
  import opened TodoModel

  datatype TodoState = TodoState(
    entities: map<int, Todo>,
    ids: seq<int>,
    loading: bool,
    loaded: bool,
    selectedTodoId: Option<int>)

  /** The state the store starts from: an empty table, nothing loading, nothing selected. */
  const InitialState: TodoState := TodoState(map[], [], false, false, None)

  /** The actions the reducer understands; `Unknown` is any other action. */
  datatype Action =
    | Unknown
    | LoadAllTodos
    | LoadAllTodosSuccess(todos: seq<Todo>)
    | LoadAllTodosFail
    | LoadTodoById(id: int)
    | AddTodo(todo: Todo)
    | UpdateTodo(id: int, changes: Changes)

  predicate NoDuplicates(ids: seq<int>) {
    forall i, j :: 0 <= i < j < |ids| ==> ids[i] != ids[j]
  }

  /** No two to-dos of the list share an id. */
  predicate DistinctIds(todos: seq<Todo>) {
    forall i, j :: 0 <= i < j < |todos| ==> todos[i].id != todos[j].id
  }

  /** The ids carried by a list of to-dos. */
  function IdSet(todos: seq<Todo>): set<int> {
    set t | t in todos :: t.id
  }

  /**
   * The entity-table invariant: `ids` lists exactly the keys of `entities`,
   * each once, and every entity is stored under its own id.
   */
  ghost predicate TableOk(entities: map<int, Todo>, ids: seq<int>) {
    && NoDuplicates(ids)
    && (forall k :: k in ids <==> k in entities)
    && (forall k :: k in entities ==> entities[k].id == k)
  }

  /** The state invariant: a sound table, and never loading and loaded at once. */
  ghost predicate Valid(s: TodoState) {
    TableOk(s.entities, s.ids) && !(s.loading && s.loaded)
  }

  lemma InitialStateValid()
    ensures Valid(InitialState)
  {
  }

  // ---------------------------------------------------------------------
  // Entity adapter operations on the table part of the state.
  // ---------------------------------------------------------------------

  /** `addOne`: a to-do whose id is new is stored and its id appended; a known id is left alone. */
  function AddOne(s: TodoState, t: Todo): (r: TodoState)
    ensures r.loading == s.loading && r.loaded == s.loaded && r.selectedTodoId == s.selectedTodoId
    ensures r.entities.Keys == s.entities.Keys + {t.id}
    ensures forall k :: k in s.entities ==> k in r.entities && r.entities[k] == s.entities[k]
    ensures t.id !in s.entities ==> r.entities[t.id] == t && r.ids == s.ids + [t.id]
    ensures t.id in s.entities ==> r == s
    ensures TableOk(s.entities, s.ids) ==> TableOk(r.entities, r.ids)
  {
    if t.id in s.entities then s
    else s.(entities := s.entities[t.id := t], ids := s.ids + [t.id])
  }

  /** `addMany`: `addOne` for each to-do of the list in turn. */
  function AddMany(s: TodoState, todos: seq<Todo>): (r: TodoState)
    ensures r.loading == s.loading && r.loaded == s.loaded && r.selectedTodoId == s.selectedTodoId
    ensures r.entities.Keys == s.entities.Keys + IdSet(todos)
    ensures forall k :: k in s.entities ==> r.entities[k] == s.entities[k]
    ensures forall k :: k in r.entities && k !in s.entities ==> r.entities[k] in todos
    ensures TableOk(s.entities, s.ids) ==> TableOk(r.entities, r.ids)
    decreases |todos|
  {
    if todos == [] then s
    else
      assert IdSet(todos) == {todos[0].id} + IdSet(todos[1..]) by {
        assert todos == [todos[0]] + todos[1..];
      }
      AddMany(AddOne(s, todos[0]), todos[1..])
  }

  /** `removeAll`: an empty table, the other fields kept. */
  function RemoveAll(s: TodoState): (r: TodoState)
    ensures r.entities == map[] && r.ids == []
    ensures r.loading == s.loading && r.loaded == s.loaded && r.selectedTodoId == s.selectedTodoId
  {
    s.(entities := map[], ids := [])
  }

  /** `addAll`: the table is replaced by the normalised list. */
  function AddAll(s: TodoState, todos: seq<Todo>): (r: TodoState)
    ensures r.loading == s.loading && r.loaded == s.loaded && r.selectedTodoId == s.selectedTodoId
    ensures r.entities.Keys == IdSet(todos)
    ensures forall k :: k in r.entities ==> r.entities[k] in todos
    ensures TableOk(r.entities, r.ids)
  {
    AddMany(RemoveAll(s), todos)
  }

  /** `updateOne`: merge the changes into the entity at `id`; an absent id changes nothing. */
  function UpdateOne(s: TodoState, id: int, c: Changes): (r: TodoState)
    ensures r.ids == s.ids && r.entities.Keys == s.entities.Keys
    ensures r.loading == s.loading && r.loaded == s.loaded && r.selectedTodoId == s.selectedTodoId
    ensures id in s.entities ==> r.entities[id] == Merge(s.entities[id], c)
    ensures forall k :: k in s.entities && k != id ==> r.entities[k] == s.entities[k]
    ensures TableOk(s.entities, s.ids) ==> TableOk(r.entities, r.ids)
  {
    if id in s.entities then s.(entities := s.entities[id := Merge(s.entities[id], c)])
    else s
  }

  // ---------------------------------------------------------------------
  // The reducer.
  // ---------------------------------------------------------------------

  /** The `todos` reducer: a total function of the previous state and the action. */
  function Reduce(s: TodoState, a: Action): (r: TodoState)
    ensures Valid(s) ==> Valid(r)
  {
    match a
    case Unknown => s
    case LoadAllTodos => s.(loading := true, loaded := false, selectedTodoId := None)
    case LoadAllTodosSuccess(todos) => AddAll(s.(loading := false, loaded := true), todos)
    case LoadAllTodosFail => InitialState
    case LoadTodoById(id) => s.(selectedTodoId := Some(id))
    case AddTodo(t) => AddOne(s, t)
    case UpdateTodo(id, c) => UpdateOne(s, id, c)
  }

  /** The reducer called with an absent (`undefined`) state starts from `InitialState`. */
  function ReduceFrom(s: Option<TodoState>, a: Action): (r: TodoState)
    ensures s.None? ==> r == Reduce(InitialState, a)
    ensures s.None? && a.Unknown? ==> r == InitialState
    ensures s.Some? ==> r == Reduce(s.value, a)
  {
    Reduce(s.GetOr(InitialState), a)
  }

  /** The store: actions are reduced one after another, in dispatch order. */
  function ReduceAll(s: TodoState, actions: seq<Action>): TodoState
    decreases |actions|
  {
    if actions == [] then s else ReduceAll(Reduce(s, actions[0]), actions[1..])
  }

  // ---------------------------------------------------------------------
  // What each action does.
  // ---------------------------------------------------------------------

  /** An action the reducer does not know returns the state it was given. */
  lemma UnknownIsIdentity(s: TodoState)
    ensures Reduce(s, Unknown) == s
  {
  }

  /** `LoadAllTodos` starts a load and clears the selection; the table is untouched. */
  lemma LoadAllTodosStartsLoading(s: TodoState)
    ensures var r := Reduce(s, LoadAllTodos);
      && r.loading && !r.loaded && r.selectedTodoId == None
      && r.entities == s.entities && r.ids == s.ids
  {
  }

  /**
   * `LoadAllTodosSuccess(todos)` finishes the load and replaces the table by
   * the list: the keys are exactly the ids the list carries, each entity is a
   * to-do of the list stored under its own id, and nothing of the previous
   * table survives.
   */
  lemma LoadAllTodosSuccessNormalises(s: TodoState, todos: seq<Todo>)
    ensures var r := Reduce(s, LoadAllTodosSuccess(todos));
      && r.loaded && !r.loading && r.selectedTodoId == s.selectedTodoId
      && r.entities.Keys == IdSet(todos)
      && (forall k :: k in r.entities ==> r.entities[k] in todos && r.entities[k].id == k)
      && NoDuplicates(r.ids)
      && (forall k :: k in r.ids <==> k in r.entities)
  {
  }

  /** With distinct ids, every to-do of the list is the entity stored under its id. */
  lemma LoadAllTodosSuccessStoresEach(s: TodoState, todos: seq<Todo>)
    requires DistinctIds(todos)
    ensures var r := Reduce(s, LoadAllTodosSuccess(todos));
      forall i :: 0 <= i < |todos| ==> r.entities[todos[i].id] == todos[i]
  {
  }

  /** The table after a successful load depends on the list alone. */
  lemma LoadAllTodosSuccessForgetsPrevious(s1: TodoState, s2: TodoState, todos: seq<Todo>)
    ensures Reduce(s1, LoadAllTodosSuccess(todos)).entities == Reduce(s2, LoadAllTodosSuccess(todos)).entities
    ensures Reduce(s1, LoadAllTodosSuccess(todos)).ids == Reduce(s2, LoadAllTodosSuccess(todos)).ids
  {
    AddManyIgnoresFlags(RemoveAll(s1.(loading := false, loaded := true)), RemoveAll(s2.(loading := false, loaded := true)), todos);
  }

  /** The table `addMany` builds does not depend on the flags or the selection. */
  lemma {:induction false} AddManyIgnoresFlags(s1: TodoState, s2: TodoState, todos: seq<Todo>)
    requires s1.entities == s2.entities && s1.ids == s2.ids
    ensures AddMany(s1, todos).entities == AddMany(s2, todos).entities
    ensures AddMany(s1, todos).ids == AddMany(s2, todos).ids
    decreases |todos|
  {
    if todos != [] {
      AddManyIgnoresFlags(AddOne(s1, todos[0]), AddOne(s2, todos[0]), todos[1..]);
    }
  }

  /** `LoadAllTodosFail` resets the whole state, whatever it was. */
  lemma LoadAllTodosFailResets(s: TodoState)
    ensures Reduce(s, LoadAllTodosFail) == InitialState
  {
  }

  /** `LoadTodoById(id)` selects `id` and changes nothing else. */
  lemma LoadTodoByIdSelects(s: TodoState, id: int)
    ensures Reduce(s, LoadTodoById(id)) == s.(selectedTodoId := Some(id))
  {
  }

  /** `AddTodo(t)` with a new id stores `t` under its id and appends the id; nothing else changes. */
  lemma AddTodoAppends(s: TodoState, t: Todo)
    requires t.id !in s.entities
    ensures Reduce(s, AddTodo(t)) == s.(entities := s.entities[t.id := t], ids := s.ids + [t.id])
  {
  }

  /**
   * `UpdateTodo(id, changes)` on a stored id overwrites only the fields the
   * changes carry; the id list and the rest of the state stay as they were.
   */
  lemma UpdateTodoMerges(s: TodoState, id: int, c: Changes)
    requires id in s.entities
    ensures var r := Reduce(s, UpdateTodo(id, c));
      && r == s.(entities := s.entities[id := Merge(s.entities[id], c)])
      && r.entities[id].id == s.entities[id].id
      && (c.done.None? ==> r.entities[id].done == s.entities[id].done)
  {
  }

  /** Every state the store reaches from a valid one, in any number of steps, is valid. */
  lemma {:induction false} ReduceAllValid(s: TodoState, actions: seq<Action>)
    requires Valid(s)
    ensures Valid(ReduceAll(s, actions))
    decreases |actions|
  {
    if actions != [] {
      ReduceAllValid(Reduce(s, actions[0]), actions[1..]);
    }
  }
}
