/** The shared world: a map from entity key to attribute map, with listeners
    called synchronously after every `update` and `set`. */
module WorldStore {
  import opened Messages

  /** The world's contents: entity key to attribute map. */
  type Space = map<string, Attrs>

  /** A registered listener, identified only by the order it was added in. */
  type ListenerId = nat

  /** One listener call `listener(entity, data)`. */
  datatype Notification = Notify(listener: ListenerId, entity: string, data: Attrs)

  /** `space.get(entity, dict())`: an absent entity reads as the empty map. */
  function Lookup(space: Space, entity: string): Attrs
  {
    if entity in space then space[entity] else map[]
  }

  /** The contents after `update(entity, key, value)`. */
  function Merge(space: Space, entity: string, key: string, value: Value): (r: Space)
    ensures r.Keys == space.Keys + {entity}
    ensures Lookup(r, entity) == Lookup(space, entity)[key := value]
    ensures entity !in space ==> r[entity] == map[key := value]
    ensures forall other :: other != entity ==> Lookup(r, other) == Lookup(space, other)
  {
    space[entity := Lookup(space, entity)[key := value]]
  }

  /** The contents after `set(entity, data)`. */
  function Replace(space: Space, entity: string, data: Attrs): (r: Space)
    ensures Lookup(r, entity) == data
    ensures forall other :: other != entity ==> Lookup(r, other) == Lookup(space, other)
    ensures r.Keys == space.Keys + {entity}
  {
    space[entity := data]
  }

  /** The calls `update_listeners` makes: each listener once, in order of registration. */
  function Notifications(listeners: seq<ListenerId>, entity: string, data: Attrs): seq<Notification>
  {
    seq(|listeners|, i requires 0 <= i < |listeners| => Notify(listeners[i], entity, data))
  }

  /** One mutation of the world. */
  datatype Op =
    | SetOp(entity: string, data: Attrs)
    | UpdateOp(entity: string, key: string, value: Value)
    | ClearOp

  function Apply(space: Space, op: Op): Space
  {
    match op
    case SetOp(e, d) => Replace(space, e, d)
    case UpdateOp(e, k, v) => Merge(space, e, k, v)
    case ClearOp => map[]
  }

  /** The contents after a sequence of mutations, applied first to last. */
  function ApplyAll(space: Space, ops: seq<Op>): Space
    decreases |ops|
  {
    if ops == [] then space else Apply(ApplyAll(space, ops[..|ops| - 1]), ops[|ops| - 1])
  }

  /** The attributes that the updates of `entity` in `ops` write; a later write of a key wins. */
  function UpdatesOf(ops: seq<Op>, entity: string): Attrs
    decreases |ops|
  {
    if ops == [] then map[]
    else
      var op := ops[|ops| - 1];
      var earlier := UpdatesOf(ops[..|ops| - 1], entity);
      if op.UpdateOp? && op.entity == entity then earlier[op.key := op.value] else earlier
  }

  /** No mutation in `ops` discards the attributes of `entity`: no clear, no set of it. */
  predicate OnlyMerges(ops: seq<Op>, entity: string)
  {
    forall i :: 0 <= i < |ops| ==> !ops[i].ClearOp? && !(ops[i].SetOp? && ops[i].entity == entity)
  }

  lemma {:induction false} ApplyAllAppend(space: Space, a: seq<Op>, b: seq<Op>)
    ensures ApplyAll(space, a + b) == ApplyAll(ApplyAll(space, a), b)
    decreases |b|
  {
    if b == [] {
      assert a + b == a;
    } else {
      var front := b[..|b| - 1];
      assert (a + b)[..|a + b| - 1] == a + front;
      ApplyAllAppend(space, a, front);
    }
  }

  /** Under mutations that only merge into `entity`, its attributes are the old
      ones overlaid with what the updates wrote (mutations of other entities do
      not interfere). */
  lemma {:induction false} MergesOverlay(space: Space, ops: seq<Op>, entity: string)
    requires OnlyMerges(ops, entity)
    ensures Lookup(ApplyAll(space, ops), entity) == Lookup(space, entity) + UpdatesOf(ops, entity)
    decreases |ops|
  {
    if ops != [] {
      var front := ops[..|ops| - 1];
      assert OnlyMerges(front, entity) by {
        forall i | 0 <= i < |front| ensures !front[i].ClearOp? && !(front[i].SetOp? && front[i].entity == entity) {
          assert front[i] == ops[i];
        }
      }
      MergesOverlay(space, front, entity);
    }
  }

  /** Last write wins: after `set(entity, data)` and mutations that only merge
      into it, `get(entity)` is `data` merged with the keys updated since. */
  lemma {:induction false} LastWriteWins(space: Space, before: seq<Op>, entity: string, data: Attrs, after: seq<Op>)
    requires OnlyMerges(after, entity)
    ensures Lookup(ApplyAll(space, before + [SetOp(entity, data)] + after), entity) == data + UpdatesOf(after, entity)
  {
    var upToSet := before + [SetOp(entity, data)];
    ApplyAllAppend(space, upToSet, after);
    assert upToSet[..|upToSet| - 1] == before;
    MergesOverlay(ApplyAll(space, upToSet), after, entity);
  }

  /** After `clear()` and mutations that only merge into `entity`, `get(entity)`
      holds exactly the keys updated since the clear. */
  lemma {:induction false} ClearForgets(space: Space, before: seq<Op>, entity: string, after: seq<Op>)
    requires OnlyMerges(after, entity)
    ensures Lookup(ApplyAll(space, before + [ClearOp] + after), entity) == UpdatesOf(after, entity)
  {
    var upToClear := before + [ClearOp];
    ApplyAllAppend(space, upToClear, after);
    assert upToClear[..|upToClear| - 1] == before;
    MergesOverlay(ApplyAll(space, upToClear), after, entity);
  }

  /** The `World` object: its `space`, its `listeners` and, as the effect of
      calling them, the log of every listener call made so far. */
  class World {
    var space: Space
    var listeners: seq<ListenerId>
    var log: seq<Notification>

    constructor ()
      ensures space == map[] && listeners == [] && log == []
    {
      space := map[];
      listeners := [];
      log := [];
    }

    method AddSetListener(listener: ListenerId)
      modifies this`listeners
      ensures listeners == old(listeners) + [listener]
    {
      listeners := listeners + [listener];
    }

    /** `get`: reads the store and never adds to it. */
    function Get(entity: string): (r: Attrs)
      reads this`space
      ensures entity in space ==> r == space[entity]
      ensures entity !in space ==> r == map[]
    {
      Lookup(space, entity)
    }

    /** `world`: the whole mapping, agreeing with `get` on every entity. */
    function Snapshot(): (r: Space)
      reads this`space
      ensures r.Keys == space.Keys
      ensures forall e :: Lookup(r, e) == Get(e)
    {
      space
    }

    method Update(entity: string, key: string, value: Value)
      modifies this`space, this`log
      ensures space == Merge(old(space), entity, key, value)
      ensures log == old(log) + Notifications(listeners, entity, Get(entity))
    {
      var entry := Get(entity);
      entry := entry[key := value];
      space := space[entity := entry];
      UpdateListeners(entity);
    }

    method Set(entity: string, data: Attrs)
      modifies this`space, this`log
      ensures space == Replace(old(space), entity, data)
      ensures log == old(log) + Notifications(listeners, entity, data)
    {
      space := space[entity := data];
      UpdateListeners(entity);
    }

    /** Calls every listener once, in order, with the entity's current attributes. */
    method UpdateListeners(entity: string)
      modifies this`log
      ensures log == old(log) + Notifications(listeners, entity, Get(entity))
    {
      var i := 0;
      while i < |listeners|
        invariant 0 <= i <= |listeners|
        invariant log == old(log) + Notifications(listeners[..i], entity, Get(entity))
      {
        assert listeners[..i + 1][..i] == listeners[..i];
        log := log + [Notify(listeners[i], entity, Get(entity))];
        i := i + 1;
      }
      assert listeners[..i] == listeners;
    }

    /** Empties the store; calls no listener. */
    method Clear()
      modifies this`space
      ensures space == map[] && log == old(log)
      ensures forall e :: Get(e) == map[]
    {
      space := map[];
    }
  }
}
