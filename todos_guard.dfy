/**
 * The route guard on a to-do's page, as one sequential decision: look the
 * id up in the store's entity table; on a miss, hand the to-dos fetched from
 * the API to the store and decide by looking the id up in that fetched list.
 * The two side effects, the dispatch to the store and the navigation to the
 * forbidden page, are returned as a trace in the order they happen.
 */
module TodosGuard {
  import opened TodoModel
  import opened TodoReducer

  /** The route's `id` parameter: the empty string, or an id. */
  datatype RouteId = Empty | Id(id: int)

  datatype Effect = Dispatch(action: Action) | Navigate(path: string)

  /** What the guard answers, with the effects it performed on the way. */
  datatype Decision = Decision(allowed: bool, effects: seq<Effect>)

  const ForbiddenPath: string := "/forbidden"

  /** How many dispatches a trace holds. */
  function Dispatches(effects: seq<Effect>): nat {
    if effects == [] then 0
    else (if effects[0].Dispatch? then 1 else 0) + Dispatches(effects[1..])
  }

  /** How many navigations to the forbidden page a trace holds. */
  function Redirects(effects: seq<Effect>): nat {
    if effects == [] then 0
    else (if effects[0] == Navigate(ForbiddenPath) then 1 else 0) + Redirects(effects[1..])
  }

  /** A property read `obj[key]`: the value stored under `key`, or `undefined`. */
  function Get(obj: map<int, Todo>, key: int): Option<Todo> {
    if key in obj then Some(obj[key]) else None
  }

  /** An array seen as the object JavaScript indexes: one property per position. */
  function AsObject(fetched: seq<Todo>): map<int, Todo> {
    map i | 0 <= i < |fetched| :: fetched[i]
  }

  /**
   * The store check: `!!entities[id]`; an entity is an object, so the read is
   * truthy exactly when it is not `undefined`.
   */
  function HasTodoInStore(id: int, entities: map<int, Todo>): (b: bool)
    ensures b <==> id in entities
  {
    Get(entities, id).Some?
  }

  /**
   * `todos[id]` on the fetched ARRAY: a read of the property `id`, that is of
   * position `id`. The ids the to-dos carry play no part.
   */
  function ElementAt(fetched: seq<Todo>, id: int): (r: Option<Todo>)
    ensures r.Some? <==> 0 <= id < |fetched|
    ensures r.Some? ==> r.value == fetched[id]
  {
    Get(AsObject(fetched), id)
  }

  /**
   * The API path: dispatch the fetched to-dos to the store, then redirect to
   * the forbidden page when the positional lookup fails.
   */
  function HasTodoInApi(id: int, fetched: seq<Todo>): (d: Decision)
    ensures d.allowed <==> 0 <= id < |fetched|
    ensures |d.effects| >= 1 && d.effects[0] == Dispatch(LoadAllTodosSuccess(fetched))
    ensures Dispatches(d.effects) == 1
    ensures Navigate(ForbiddenPath) in d.effects <==> !d.allowed
    ensures Redirects(d.effects) <= 1
    ensures forall e :: e in d.effects ==> e.Dispatch? || e == Navigate(ForbiddenPath)
  {
    var dispatched := [Dispatch(LoadAllTodosSuccess(fetched))];
    var found := ElementAt(fetched, id).Some?;
    var effects := if found then dispatched else dispatched + [Navigate(ForbiddenPath)];
    assert Dispatches(effects) == 1 && Redirects(effects) <= 1 by {
      assert dispatched[1..] == [];
      assert Dispatches(dispatched) == 1 && Redirects(dispatched) == 0;
      if !found {
        assert effects[1..] == [Navigate(ForbiddenPath)];
        assert effects[1..][1..] == [];
        assert Dispatches(effects[1..]) == 0 && Redirects(effects[1..]) == 1;
      }
    }
    Decision(found, effects)
  }

  /** The store first; the API only on a store miss. */
  function HasTodo(id: int, entities: map<int, Todo>, fetched: seq<Todo>): (d: Decision)
    ensures d.allowed <==> id in entities || 0 <= id < |fetched|
    ensures id in entities ==> d.effects == []
    ensures id !in entities ==> |d.effects| >= 1 && d.effects[0] == Dispatch(LoadAllTodosSuccess(fetched))
    ensures Dispatches(d.effects) <= 1 && Redirects(d.effects) <= 1
    ensures Navigate(ForbiddenPath) in d.effects <==> !d.allowed
    ensures forall e :: e in d.effects ==> e.Dispatch? || e == Navigate(ForbiddenPath)
  {
    if HasTodoInStore(id, entities) then Decision(true, []) else HasTodoInApi(id, fetched)
  }

  /**
   * `canActivate`: an empty id always passes with no effect; any other id
   * passes when it is in the store or at a position of the fetched list. On a
   * store miss the fetched list is dispatched once, first; the forbidden page
   * is visited exactly when the guard says no, and never twice.
   */
  function CanActivate(route: RouteId, entities: map<int, Todo>, fetched: seq<Todo>): (d: Decision)
    ensures d.allowed <==> route.Empty? || route.id in entities || 0 <= route.id < |fetched|
    ensures route.Empty? ==> d.effects == []
    ensures route.Id? && route.id in entities ==> d.effects == []
    ensures route.Id? && route.id !in entities ==>
      |d.effects| >= 1 && d.effects[0] == Dispatch(LoadAllTodosSuccess(fetched))
    ensures Dispatches(d.effects) <= 1 && Redirects(d.effects) <= 1
    ensures Navigate(ForbiddenPath) in d.effects <==> !d.allowed
    ensures forall e :: e in d.effects ==> e.Dispatch? || e == Navigate(ForbiddenPath)
  {
    match route
    case Empty => Decision(true, [])
    case Id(id) => HasTodo(id, entities, fetched)
  }

  /** The store after it has seen the trace's dispatches, in order; navigation leaves it alone. */
  function ApplyEffects(s: TodoState, effects: seq<Effect>): (r: TodoState)
    ensures Valid(s) ==> Valid(r)
    decreases |effects|
  {
    if effects == [] then s
    else
      var next := match effects[0]
        case Dispatch(a) => Reduce(s, a)
        case Navigate(_) => s;
      ApplyEffects(next, effects[1..])
  }

  // ---------------------------------------------------------------------
  // Properties of the decision.
  // ---------------------------------------------------------------------

  /** An empty id: allowed, with no dispatch and no navigation, whatever the store and the API hold. */
  lemma EmptyRouteAllows(entities: map<int, Todo>, fetched: seq<Todo>)
    ensures CanActivate(Empty, entities, fetched) == Decision(true, [])
  {
  }

  /** A store hit: allowed with an empty trace, and the fetched list plays no part. */
  lemma StoreHitSkipsApi(id: int, entities: map<int, Todo>, fetched1: seq<Todo>, fetched2: seq<Todo>)
    requires id in entities
    ensures CanActivate(Id(id), entities, fetched1) == Decision(true, [])
    ensures CanActivate(Id(id), entities, fetched1) == CanActivate(Id(id), entities, fetched2)
  {
  }

  /** The API answer depends on the length of the fetched list only, not on any to-do's id. */
  lemma ApiAnswerIgnoresIds(id: int, fetched1: seq<Todo>, fetched2: seq<Todo>)
    requires |fetched1| == |fetched2|
    ensures HasTodoInApi(id, fetched1).allowed == HasTodoInApi(id, fetched2).allowed
  {
  }

  /**
   * Whatever the guard answers, the store it leaves behind on a miss holds the
   * fetched to-dos: loaded, and keyed by exactly the ids they carry.
   */
  lemma StoreMissHydratesStore(s: TodoState, id: int, fetched: seq<Todo>)
    requires id !in s.entities
    ensures var r := ApplyEffects(s, CanActivate(Id(id), s.entities, fetched).effects);
      r.loaded && !r.loading && r.entities.Keys == IdSet(fetched)
  {
    var effects := CanActivate(Id(id), s.entities, fetched).effects;
    var loaded := Reduce(s, LoadAllTodosSuccess(fetched));
    LoadAllTodosSuccessNormalises(s, fetched);
    assert ApplyEffects(s, effects) == ApplyEffects(loaded, effects[1..]);
    NavigationsLeaveStore(loaded, effects[1..]);
  }

  /** A trace of navigations only leaves the store as it was. */
  lemma {:induction false} NavigationsLeaveStore(s: TodoState, effects: seq<Effect>)
    requires forall i :: 0 <= i < |effects| ==> effects[i].Navigate?
    ensures ApplyEffects(s, effects) == s
    decreases |effects|
  {
    if effects != [] {
      NavigationsLeaveStore(s, effects[1..]);
    }
  }

  // ---------------------------------------------------------------------
  // The positional lookup against the lookup by key.
  // ---------------------------------------------------------------------

  const LoadedTodo1: Todo := Todo(1, false, "todo 1", "")
  const LoadedTodo5: Todo := Todo(5, false, "todo 5", "")

  /**
   * The only fetched to-do has id 1: the store now holds id 1, yet position 1
   * of the list is empty, so the guard denies and redirects.
   */
  lemma PositionalLookupMissesLoadedTodo()
    ensures var d := CanActivate(Id(1), map[], [LoadedTodo1]);
      && d == Decision(false, [Dispatch(LoadAllTodosSuccess([LoadedTodo1])), Navigate(ForbiddenPath)])
      && 1 in ApplyEffects(InitialState, d.effects).entities
  {
    var d := CanActivate(Id(1), map[], [LoadedTodo1]);
    var loaded := Reduce(InitialState, LoadAllTodosSuccess([LoadedTodo1]));
    LoadAllTodosSuccessStoresEach(InitialState, [LoadedTodo1]);
    assert [Navigate(ForbiddenPath)][1..] == [];
    assert ApplyEffects(InitialState, d.effects) == ApplyEffects(loaded, [Navigate(ForbiddenPath)]);
    assert ApplyEffects(loaded, [Navigate(ForbiddenPath)]) == loaded;
  }

  /**
   * The only fetched to-do has id 5: position 0 is filled, so the guard allows
   * id 0 although no to-do with id 0 exists in the store it leaves behind.
   */
  lemma PositionalLookupAdmitsMissingTodo()
    ensures var d := CanActivate(Id(0), map[], [LoadedTodo5]);
      && d == Decision(true, [Dispatch(LoadAllTodosSuccess([LoadedTodo5]))])
      && 0 !in ApplyEffects(InitialState, d.effects).entities
  {
  }
}
