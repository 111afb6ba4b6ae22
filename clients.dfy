/** Per-connection mailboxes and the list of connected clients that every
    broadcast goes to. */
module Mailboxes {
  import opened Messages

  /** One connection's outbound FIFO queue. */
  class Client {
    var queue: seq<Outbound>

    constructor ()
      ensures queue == []
    {
      queue := [];
    }

    /** `put`: never blocks, appends at the tail. */
    method Put(v: Outbound)
      modifies this
      ensures queue == old(queue) + [v]
    {
      queue := queue + [v];
    }

    /** `get`: takes the head. On an empty queue the source suspends until a
        message arrives; here that is None, and nothing is taken. */
    method Get() returns (r: Option<Outbound>)
      modifies this
      ensures old(queue) == [] ==> r == None && queue == old(queue)
      ensures old(queue) != [] ==> r == Some(old(queue)[0]) && queue == old(queue)[1..]
    {
      if queue == [] {
        r := None;
      } else {
        r := Some(queue[0]);
        queue := queue[1..];
      }
    }
  }

  /** A client returns what was put on it, in the order it was put. */
  method FifoDelivery(messages: seq<Outbound>) returns (received: seq<Outbound>)
    ensures received == messages
  {
    var c := new Client();
    for i := 0 to |messages|
      invariant c.queue == messages[..i]
    {
      c.Put(messages[i]);
    }
    received := [];
    while |received| < |messages|
      invariant received + c.queue == messages
      decreases |c.queue|
    {
      var m := c.Get();
      received := received + [m.value];
    }
  }

  /** The queues after putting `m` on each: exactly once, at the tail, on every one. */
  function Broadcast(queues: seq<seq<Outbound>>, m: Outbound): seq<seq<Outbound>>
  {
    seq(|queues|, i requires 0 <= i < |queues| => queues[i] + [m])
  }

  /** The queues of the given clients, in list order. */
  function QueuesOf(clients: seq<Client>): seq<seq<Outbound>>
    reads clients
  {
    seq(|clients|, i requires 0 <= i < |clients| reads clients => clients[i].queue)
  }

  ghost predicate Distinct(clients: seq<Client>)
  {
    forall i, j :: 0 <= i < j < |clients| ==> clients[i] != clients[j]
  }

  /** The position `list.remove` takes an element out of: its first occurrence. */
  function IndexOf<T(==)>(s: seq<T>, x: T): (k: nat)
    requires x in s
    ensures k < |s| && s[k] == x && x !in s[..k]
  {
    if s[0] == x then 0 else IndexOf(s[1..], x) + 1
  }

  /** The module-level `clients` list. Every connection adds a fresh client, so
      no client is listed twice. */
  class Registry {
    var members: seq<Client>

    ghost predicate Valid()
      reads this
    {
      Distinct(members)
    }

    constructor ()
      ensures Valid() && members == []
    {
      members := [];
    }

    /** `client = Client(); clients.append(client)` on a new connection. */
    method Subscribe() returns (c: Client)
      requires Valid()
      modifies this`members
      ensures Valid() && fresh(c) && c.queue == []
      ensures members == old(members) + [c]
    {
      c := new Client();
      members := members + [c];
    }

    /** `clients.remove(client)` when a connection ends; removing a client that
        is not listed raises in the source and changes nothing here. */
    method Unsubscribe(c: Client) returns (removed: bool)
      requires Valid()
      modifies this`members
      ensures Valid() && c !in members
      ensures removed == (c in old(members))
      ensures removed ==> var k := IndexOf(old(members), c);
                          members == old(members)[..k] + old(members)[k + 1..]
      ensures !removed ==> members == old(members)
    {
      removed := c in members;
      if removed {
        var k := IndexOf(members, c);
        ghost var was := members;
        members := members[..k] + members[k + 1..];
        forall j | 0 <= j < |members| ensures members[j] != c {
          if j < k { assert members[j] == was[j]; } else { assert members[j] == was[j + 1]; }
        }
      }
    }

    /** `send_all`: puts `m` once on every listed client, the sender included;
        no other client's queue changes. */
    method SendAll(m: Outbound)
      requires Valid()
      modifies members
      ensures QueuesOf(members) == Broadcast(old(QueuesOf(members)), m)
    {
      ghost var before := QueuesOf(members);
      var i := 0;
      while i < |members|
        invariant 0 <= i <= |members|
        invariant forall j :: 0 <= j < i ==> members[j].queue == before[j] + [m]
        invariant forall j :: i <= j < |members| ==> members[j].queue == before[j]
      {
        members[i].Put(m);
        i := i + 1;
      }
    }

    /** `send_all_json`: broadcasts the JSON encoding of `v`. */
    method SendAllJson(v: Value)
      requires Valid()
      modifies members
      ensures QueuesOf(members) == Broadcast(old(QueuesOf(members)), JsonText(v))
    {
      SendAll(JsonText(v));
    }
  }

  /** A client that has been removed gets nothing from a later broadcast, while
      every client still listed does. */
  method DisconnectThenBroadcast(registry: Registry, c: Client, m: Outbound)
    requires registry.Valid() && c in registry.members
    modifies registry, registry.members
    ensures registry.Valid() && c !in registry.members
    ensures c.queue == old(c.queue)
    ensures |registry.members| == |old(registry.members)| - 1
    ensures forall d :: d in registry.members ==> d in old(registry.members) && d.queue == old(d.queue) + [m]
  {
    var removed := registry.Unsubscribe(c);
    ghost var left := QueuesOf(registry.members);
    registry.SendAll(m);
    forall d | d in registry.members ensures d.queue == old(d.queue) + [m] {
      var j :| 0 <= j < |registry.members| && registry.members[j] == d;
      assert QueuesOf(registry.members)[j] == left[j] + [m];
    }
  }
}
