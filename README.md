# ngrx to-do store: reducer and route guard

This project models two pieces of the state layer of a single-page to-do
application built on a reducer-driven store (ngrx) with a normalised entity
table (@ngrx/entity):

- the `todos` reducer, a pure function from the previous `TodoState` and an
  action to the next state. The state holds `entities` (to-dos by id), `ids`
  (the ordered id list), the `loading` / `loaded` flags and `selectedTodoId`.
  The reducer's test suite (`src/app/store/reducers/todo.reducer.spec.ts`)
  fixes its behaviour, but only from the starting states the tests use. The
  reducer's own source is not part of this model. `AddTodo` is modelled on
  the entity adapter's `addOne`, which the tests name. `UpdateTodo` is
  modelled on `updateOne`, inferred from the `Update<Todo>` payload the test
  builds. A successful load is assumed to use the adapter's `addAll`,
  modelled as `removeAll` followed by `addMany`; the tests fix only the
  resulting `entities` from the initial state.
- the route guard `TodosGuard` (`src/app/todos/todos.guard.ts`), as one
  sequential decision. The inputs are the route's id (empty, or an id), the
  store's entity table, and the to-dos the API returns. The result is a
  `Decision`: whether navigation is allowed, plus the trace of side effects in
  the order they happen. Those effects are the dispatch of
  `LoadAllTodosSuccess(todos)` to the store and the navigation to
  `/forbidden`.

Files:

- `todo.dfy` (module `TodoModel`): `Todo`, the partial update `Changes`, and
  `Merge` (object-spread semantics).
- `todo_reducer.dfy` (module `TodoReducer`): `TodoState`, `InitialState`,
  `Action`, the table invariant `Valid`, the adapter operations, `Reduce`,
  and one lemma per action. `ReduceAll` is the store reducing a sequence of
  actions in dispatch order; `ReduceAllValid` proves the invariant holds over
  any such run.
- `todo_reducer_spec.dfy` (module `TodoReducerSpec`): each test case of the
  reducer's suite as a lemma on the same concrete values.
- `todos_guard.dfy` (module `TodosGuard`): `Get` (a JavaScript property read,
  `undefined` as `None`), `AsObject` (an array as the object JavaScript
  indexes), `HasTodoInStore`, `ElementAt`, `HasTodoInApi`,
  `HasTodo`, `CanActivate`, and `ApplyEffects`, which replays a trace's
  dispatches through `Reduce`.

The table invariant (`TodoReducer.Valid`) says four things. `ids` has no
duplicates. An id is in `ids` exactly when it is a key of `entities`. Every
entity is stored under its own `id`. `loading` and `loaded` are never both
true. `Reduce` keeps it for every action.

The guard's API check indexes the fetched array by the route id
(`action.todos[id]`, `todos.guard.ts:40-43`). That is a lookup by position,
not by the to-do's `id` field. The store check (`todos.guard.ts:25`) looks the
id up by key. The model keeps the positional lookup as the code has it.
`ApiAnswerIgnoresIds` states that the answer depends only on the length of the
list. Two concrete lemmas show where the two lookups disagree:

- `PositionalLookupMissesLoadedTodo`: the to-do just loaded into the store is
  denied.
- `PositionalLookupAdmitsMissingTodo`: an id that no to-do has is allowed.

`AddTodo` follows `addOne`, the adapter operation the test names
(`todo.reducer.spec.ts:81`), so an id that is already present is left alone.
`UpdateTodo` follows `updateOne` (inferred from the `Update<Todo>` payload,
`todo.reducer.spec.ts:112`), so an absent id changes nothing. The tests
do not exercise either case; the contracts of `AddOne` and `UpdateOne` state
the adapter's behaviour there.

## Model

| member | source | states |
|---|---|---|
| TodoModel.Merge | src/app/store/reducers/todo.reducer.spec.ts:112-128 | field by field: a field present in the changes overwrites, an absent one survives; the id never changes |
| TodoModel.MergeNoChanges | src/app/store/reducers/todo.reducer.spec.ts:112-128 | merging the empty patch gives back the same to-do |
| TodoModel.MergeIdempotent | src/app/store/reducers/todo.reducer.spec.ts:112-128 | applying the same patch twice equals applying it once |
| TodoReducer.InitialStateValid | src/app/store/reducers/todo.reducer.spec.ts:11-19 | the initial state satisfies the table invariant |
| TodoReducer.AddOne | src/app/store/reducers/todo.reducer.spec.ts:80-94 | a new id is stored with its to-do and appended to `ids`; a known id leaves the state unchanged; the other entries and flags survive; the table invariant is kept |
| TodoReducer.AddMany | src/app/store/reducers/todo.reducer.spec.ts:36-56 | keys become the old keys plus the list's ids; old entries survive; every new entry is a to-do of the list; the table invariant is kept |
| TodoReducer.RemoveAll | src/app/store/reducers/todo.reducer.spec.ts:36-56 | the table is emptied and flags and selection are kept |
| TodoReducer.AddAll | src/app/store/reducers/todo.reducer.spec.ts:36-56 | the table's keys are exactly the list's ids, each entry is a to-do of the list, and the table invariant holds whatever the previous table was |
| TodoReducer.UpdateOne | src/app/store/reducers/todo.reducer.spec.ts:96-129 | on a stored id, the entry becomes the merge of old entry and changes; ids, keys, other entries and flags unchanged; the table invariant is kept |
| TodoReducer.Reduce | src/app/store/reducers/todo.reducer.spec.ts:8-132 | the reducer is total and every action keeps the state invariant (ids equal the keys, no duplicates, keyed by own id, never loading and loaded) |
| TodoReducer.ReduceFrom | src/app/store/reducers/todo.reducer.spec.ts:11-19 | an absent state is reduced as the initial state, for every action; with an unknown action that yields exactly the initial state; a present state is reduced as given |
| TodoReducer.UnknownIsIdentity | src/app/store/reducers/todo.reducer.spec.ts:11-19 | an unknown action returns the input state |
| TodoReducer.LoadAllTodosStartsLoading | src/app/store/reducers/todo.reducer.spec.ts:23-33 | loading is true, loaded false, no selection; the table is untouched |
| TodoReducer.LoadAllTodosSuccessNormalises | src/app/store/reducers/todo.reducer.spec.ts:36-56 | loaded true, loading false; keys are exactly the list's ids; each entry is a to-do of the list stored under its id; `ids` lists the keys without duplicates |
| TodoReducer.LoadAllTodosSuccessStoresEach | src/app/store/reducers/todo.reducer.spec.ts:36-56 | with distinct ids, each to-do of the list is the entry under its id |
| TodoReducer.LoadAllTodosSuccessForgetsPrevious | src/app/store/reducers/todo.reducer.spec.ts:36-56 | the table after a successful load depends on the list alone, not on the previous state |
| TodoReducer.AddManyIgnoresFlags | src/app/store/reducers/todo.reducer.spec.ts:36-56 | the table `addMany` builds depends only on the starting table and the list |
| TodoReducer.LoadAllTodosFailResets | src/app/store/reducers/todo.reducer.spec.ts:59-68 | a failed load returns the initial state from any state, a full reset |
| TodoReducer.LoadTodoByIdSelects | src/app/store/reducers/todo.reducer.spec.ts:70-78 | the selection becomes the id and nothing else changes |
| TodoReducer.AddTodoAppends | src/app/store/reducers/todo.reducer.spec.ts:80-94 | adding a to-do with a new id stores it under its id and appends the id; nothing else changes |
| TodoReducer.UpdateTodoMerges | src/app/store/reducers/todo.reducer.spec.ts:96-129 | updating a stored id replaces only that entry, by the merge; `id` and an untouched `done` survive; the rest of the state is unchanged |
| TodoReducer.ReduceAllValid | src/app/store/reducers/todo.reducer.spec.ts:80-129 | any sequence of actions, reduced in dispatch order from a valid state, ends in a valid state |
| TodoReducerSpec.UndefinedActionGivesDefaultState | src/app/store/reducers/todo.reducer.spec.ts:11-19 | the test case: an undefined state and a blank action give the initial state |
| TodoReducerSpec.LoadAllTodosChangesLoading | src/app/store/reducers/todo.reducer.spec.ts:23-33 | the test case: loading true, loaded false, selection null |
| TodoReducerSpec.LoadAllTodosSuccessFillsEntities | src/app/store/reducers/todo.reducer.spec.ts:36-56 | the test case: two to-dos give exactly `{1: todo1, 2: todo2}`, loaded true, loading false |
| TodoReducerSpec.LoadAllTodosFailGivesInitialState | src/app/store/reducers/todo.reducer.spec.ts:59-68 | the test case: from a loading state, the result equals the initial state |
| TodoReducerSpec.LoadTodoByIdSelectsOne | src/app/store/reducers/todo.reducer.spec.ts:70-78 | the test case: the selection becomes 1 |
| TodoReducerSpec.AddTodoOnInitialState | src/app/store/reducers/todo.reducer.spec.ts:80-94 | the test case: the initial state with `entities = {1: todo}` and `ids = [1]` |
| TodoReducerSpec.UpdateTodoAfterAddTodo | src/app/store/reducers/todo.reducer.spec.ts:96-129 | the test case: after add then update, the title and description change, `done` and `id` survive, `ids` stays `[1]` |
| TodosGuard.HasTodoInStore | src/app/todos/todos.guard.ts:22-27 | the truthiness of the property read `entities[id]` holds exactly when the id is a key of the entity table |
| TodosGuard.ElementAt | src/app/todos/todos.guard.ts:39-44 | the property read `todos[id]` on the fetched array is defined exactly when `id` is a position of the array, and is the element at that position |
| TodosGuard.HasTodoInApi | src/app/todos/todos.guard.ts:35-46 | allowed exactly when position `id` exists; the first effect is the dispatch of the fetched list, there is exactly one dispatch, the redirect to `/forbidden` appears exactly when denied and at most once, and the trace holds no other effect |
| TodosGuard.HasTodo | src/app/todos/todos.guard.ts:53-63 | allowed exactly when the id is in the store or a position of the fetched array; a store hit has an empty trace; a miss dispatches the fetched list first; at most one dispatch and one redirect, the redirect exactly when denied, and no other effect |
| TodosGuard.CanActivate | src/app/todos/todos.guard.ts:53-76 | allowed exactly when the id is empty, in the store, or a position of the fetched array; an empty id or a store hit has an empty trace; a miss dispatches the fetched list first; at most one dispatch and one redirect, the redirect exactly when denied, and no other effect |
| TodosGuard.ApplyEffects | src/app/todos/todos.guard.ts:36-38 | replaying a trace's dispatches through the reducer keeps the state invariant |
| TodosGuard.EmptyRouteAllows | src/app/todos/todos.guard.ts:65-70 | an empty id: allowed, no dispatch, no navigation, whatever the store and API hold |
| TodosGuard.StoreHitSkipsApi | src/app/todos/todos.guard.ts:53-58 | a store hit: allowed, empty trace, and the fetched list makes no difference |
| TodosGuard.ApiAnswerIgnoresIds | src/app/todos/todos.guard.ts:39-44 | the API answer depends on the length of the fetched list only, not on any to-do's id |
| TodosGuard.StoreMissHydratesStore | src/app/todos/todos.guard.ts:35-38 | after a miss, the store is loaded and keyed by exactly the fetched ids, whatever the answer |
| TodosGuard.NavigationsLeaveStore | src/app/todos/todos.guard.ts:40-43 | navigating to another page does not change the store |
| TodosGuard.PositionalLookupMissesLoadedTodo | src/app/todos/todos.guard.ts:40-43 | fetching only the to-do with id 1 denies id 1 and redirects, though the store now holds id 1 |
| TodosGuard.PositionalLookupAdmitsMissingTodo | src/app/todos/todos.guard.ts:40-43 | fetching only the to-do with id 5 allows id 0, though the store holds no id 0 |

## Left out

- The reducer's own source is not part of this model. Where its tests fix nothing, the model follows @ngrx/entity and the contracts state that behaviour: `AddTodo` of an id already present leaves the state as it was (`addOne`), and `UpdateTodo` of an absent id changes nothing (`updateOne`). The order of `ids` after `LoadAllTodosSuccess`, and which to-do wins when the list repeats an id (the first, as `addMany` does), are modelled but no lemma states them.
- Assumed reducer behaviour that the tests do not fix, because each test starts from `initialState`, while the contracts state it for every state:
  - `LoadAllTodosFailResets`: a failed load resets to `initialState` from any state. From the tested start, `{...initialState, loading: true}`, a reducer that only cleared `loading` would give the same result.
  - `AddOne`: a new id is appended at the end of a non-empty `ids`. This assumes an adapter without a sort comparer; the only add test starts from an empty table.
  - `LoadAllTodosStartsLoading`: an earlier selection is cleared and the table is kept.
  - `LoadAllTodosSuccessNormalises`: the selection is kept.
- The guard dispatches the action made by the creator `loadAllTodosSuccess({todos})`, while the tests fix how the reducer handles the class `new LoadAllTodosSuccess(todos)`. The model has one `LoadAllTodosSuccess(todos)` case for both, so `StoreMissHydratesStore` and the store clause of `PositionalLookupMissesLoadedTodo` assume the reducer treats the two forms alike.
- `Changes` uses `None` both for a field absent from the patch and for a field present with the value `undefined`. Object spread would write `undefined` into the to-do in the second case; the model keeps the stored value instead.
- `Changes` has no `id` field: an update that re-keys an entity is not modelled, because the tests never change an id and re-keying is behaviour the tests do not fix.
- `LoadAllTodosFail` carries an error payload in the source; the reducer's tests show it is ignored, so the action has no payload here.
- The test for an unknown action checks reference identity (`toBe`); the model states value equality, as Dafny has no reference identity for records.
- The observable plumbing (`pipe`, `select`, `map`, `switchMap`, `take`, `tap`, `of`) and the timing of the asynchronous fetch: the guard is one sequential step over an already-fetched list.
- `TodoService`, HTTP and the in-memory mock API: foreign calls; the fetched list is an input, and a failing fetch is not modelled.
- `Router.navigate` and `Store.dispatch` internals: they appear only as effects in the trace (the store's response is replayed by `ApplyEffects`).
- The conversion of the string route parameter to a number, and a missing (undefined) parameter: the route id is either empty or an integer.
- `src/app/app.module.ts`: module and dependency-injection wiring with no logic.
- Selectors, effects classes and UI components: not part of this model.
