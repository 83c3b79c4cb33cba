/**
 * The reducer's test suite, one lemma per test case, on the same concrete
 * to-dos and actions.
 */
module TodoReducerSpec {
  import opened TodoModel
  import opened TodoReducer

  const FakeTodo1: Todo := Todo(1, true, "fake Todo 1", "fake description 1")
  const FakeTodo2: Todo := Todo(2, false, "fake Todo 2", "fake description 2")

  /** An unknown action on an absent state gives the initial state. */
  lemma UndefinedActionGivesDefaultState()
    ensures ReduceFrom(None, Unknown) == InitialState
  {
  }

  lemma LoadAllTodosChangesLoading()
    ensures var r := Reduce(InitialState, LoadAllTodos);
      r.loading == true && r.loaded == false && r.selectedTodoId == None
  {
  }

  /** Loading two to-dos fills the table with exactly those two, keyed by id. */
  lemma LoadAllTodosSuccessFillsEntities()
    ensures var r := Reduce(InitialState, LoadAllTodosSuccess([FakeTodo1, FakeTodo2]));
      && r.loaded == true && r.loading == false
      && r.entities == map[1 := FakeTodo1, 2 := FakeTodo2]
  {
  }

  /** A failed load from a loading state gives back exactly the initial state. */
  lemma LoadAllTodosFailGivesInitialState()
    ensures Reduce(InitialState.(loading := true), LoadAllTodosFail) == InitialState
  {
  }

  lemma LoadTodoByIdSelectsOne()
    ensures Reduce(InitialState, LoadTodoById(1)).selectedTodoId == Some(1)
  {
  }

  lemma AddTodoOnInitialState()
    ensures Reduce(InitialState, AddTodo(FakeTodo1))
         == InitialState.(entities := map[FakeTodo1.id := FakeTodo1], ids := [FakeTodo1.id])
  {
  }

  /** An update carrying a new title and description keeps `id` and `done`. */
  lemma UpdateTodoAfterAddTodo()
    ensures var added := Reduce(InitialState, AddTodo(FakeTodo1));
      var updated := Reduce(added, UpdateTodo(1, Changes(None, Some("Update Todo 1"), Some("Update description 1"))));
      && added == InitialState.(entities := map[FakeTodo1.id := FakeTodo1], ids := [FakeTodo1.id])
      && updated == added.(entities := map[1 := Todo(1, true, "Update Todo 1", "Update description 1")], ids := [1])
  {
  }
}
