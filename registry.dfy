/**
 * The action registry: a table from action type to the handler that runs
 * it. Registering a type that is already present replaces its handler and
 * keeps the type's place in the listing, as a JavaScript `Map` does.
 */
module Registry {
  import opened Common
  import opened Model

  /** A handler, known by the type it serves and its name. */
  datatype Handler = Handler(actionType: ActionType, name: string)

  class ActionRegistry {
    /** The bound handler of each registered type. */
    var handlers: map<ActionType, Handler>
    /** The registered types, in first-registration order. */
    var order: seq<ActionType>

    ghost predicate Valid()
      reads this
    {
      NoDuplicates(order) && forall t :: t in handlers <==> t in order
    }

    constructor()
      ensures Valid() && handlers == map[] && order == []
    {
      handlers := map[];
      order := [];
    }

    /** Binds `h` under its own type, replacing any earlier handler for that type. */
    method Register(h: Handler)
      requires Valid()
      modifies this
      ensures Valid()
      ensures handlers == old(handlers)[h.actionType := h]
      ensures order == WithKey(old(order), h.actionType)
    {
      if h.actionType !in handlers {
        order := order + [h.actionType];
      }
      handlers := handlers[h.actionType := h];
    }

    /** The handler bound to `t`, or nothing. */
    function Get(t: ActionType): (r: Option<Handler>)
      reads this
      ensures r.Some? <==> t in handlers
      ensures r.Some? ==> r.value == handlers[t]
    {
      OptionOf(handlers, t)
    }

    function Has(t: ActionType): (r: bool)
      reads this
      ensures r <==> Get(t).Some?
    {
      t in handlers
    }

    /** Every bound type exactly once, in registration order. */
    function RegisteredTypes(): (r: seq<ActionType>)
      requires Valid()
      reads this
      ensures NoDuplicates(r)
      ensures forall t :: t in r <==> Has(t)
      ensures |r| == |handlers|
    {
      assert SetOf(order) == handlers.Keys;
      NoDuplicatesCardinality(order);
      order
    }
  }

  /** A key listing after `t` is set: `t` goes last unless it is already listed. */
  function WithKey(order: seq<ActionType>, t: ActionType): seq<ActionType> {
    if t in order then order else order + [t]
  }

  /** Registering `h` makes `h` the answer for its type and leaves every other type alone. */
  lemma RegisterEffect(before: map<ActionType, Handler>, h: Handler, t: ActionType)
    ensures OptionOf(before[h.actionType := h], t) ==
      if t == h.actionType then Some(h) else OptionOf(before, t)
  {
  }
}
