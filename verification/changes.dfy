/** The two change representations `getChanges` works with: the raw records
    produced by `consul.GetChanges` (a function outside this model) and the
    typed Add/Update/Remove changes of package `diff`. */
module Changes {
  import opened Results

  /** The action tag of a raw change. The source switches on three tags and
      silently skips any other. */
  datatype ConsulAction = ConsulAdd | ConsulRemove | ConsulUpdate | OtherAction(tag: string)

  /** A raw change: `val` is the value in the store, `newVal` the desired one. */
  datatype ConsulChange = ConsulChange(action: ConsulAction, key: string, val: string, newVal: string)

  /** A typed change (`diff.NewAdd`, `diff.NewUpdate`, `diff.NewRemove`). */
  datatype KVChange =
    | Add(key: string, newVal: string)
    | Update(key: string, oldVal: string, newVal: string)
    | Remove(key: string, oldVal: string)
  {
    /** The raw action tag this kind of change corresponds to. */
    function Action(): ConsulAction
    {
      match this
      case Add(_, _) => ConsulAdd
      case Update(_, _, _) => ConsulUpdate
      case Remove(_, _) => ConsulRemove
    }

    /** The value in the store before the change, if the change records one. */
    function Before(): Option<string>
    {
      match this
      case Add(_, _) => None
      case Update(_, prev, _) => Some(prev)
      case Remove(_, prev) => Some(prev)
    }

    /** The value the change writes, if it writes one. */
    function After(): Option<string>
    {
      match this
      case Add(_, v) => Some(v)
      case Update(_, _, v) => Some(v)
      case Remove(_, _) => None
    }
  }

  /** The action switch of `getChanges`: an Add keeps the desired value, a
      Remove the stored value, an Update both; other tags yield nothing.
      The result is pinned down by its key, tag, and before/after values. */
  function Convert(c: ConsulChange): (r: Option<KVChange>)
    ensures r.None? <==> c.action.OtherAction?
    ensures r.Some? ==> r.value.key == c.key && r.value.Action() == c.action
    ensures r.Some? ==> r.value.Before() == (if c.action == ConsulAdd then None else Some(c.val))
    ensures r.Some? ==> r.value.After() == (if c.action == ConsulRemove then None else Some(c.newVal))
  {
    match c.action
    case ConsulAdd => Some(Add(c.key, c.newVal))
    case ConsulRemove => Some(Remove(c.key, c.val))
    case ConsulUpdate => Some(Update(c.key, c.val, c.newVal))
    case OtherAction(_) => None
  }

  /** The observers determine a change: two changes with the same key, tag and
      before/after values are equal, so `Convert`'s contract fixes its result. */
  lemma ObserversDetermineChange(a: KVChange, b: KVChange)
    requires a.key == b.key && a.Action() == b.Action()
    requires a.Before() == b.Before() && a.After() == b.After()
    ensures a == b
  {
  }
}
