/** To-do records and the partial updates that the store merges into them. */
module TodoModel {

  /** The usual Some/None wrapper; `None` stands for JavaScript's `null`. */
  datatype Option<T> = None | Some(value: T) {
    function GetOr(default: T): T {
      match this
      case Some(v) => v
      case None => default
    }
  }

  /** A to-do item; `id` is its primary key in the entity table. */
  datatype Todo = Todo(id: int, done: bool, title: string, description: string)

  /**
   * The `changes` of an `Update<Todo>`: a partial to-do. A field that is
   * `Some` overwrites the stored one, a field that is `None` was absent from
   * the object and leaves the stored one alone. The key itself is not a field
   * here: an update never re-keys an entity in this model.
   */
  datatype Changes = Changes(done: Option<bool>, title: Option<string>, description: Option<string>)

  /** The empty patch `{}`. */
  const NoChanges: Changes := Changes(None, None, None)

  /** `{...t, ...c}`: the fields present in `c` win, every other field of `t` survives. */
  function Merge(t: Todo, c: Changes): (r: Todo)
    ensures r.id == t.id
    ensures c.done.Some? ==> r.done == c.done.value
    ensures c.done.None? ==> r.done == t.done
    ensures c.title.Some? ==> r.title == c.title.value
    ensures c.title.None? ==> r.title == t.title
    ensures c.description.Some? ==> r.description == c.description.value
    ensures c.description.None? ==> r.description == t.description
  {
    Todo(t.id, c.done.GetOr(t.done), c.title.GetOr(t.title), c.description.GetOr(t.description))
  }

  /** Merging the empty patch gives back the same to-do. */
  lemma MergeNoChanges(t: Todo)
    ensures Merge(t, NoChanges) == t
  {
  }

  /** Applying the same patch twice is the same as applying it once. */
  lemma MergeIdempotent(t: Todo, c: Changes)
    ensures Merge(Merge(t, c), c) == Merge(t, c)
  {
  }
}
