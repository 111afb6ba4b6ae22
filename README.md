# Shared world and broadcast fan-out of the websocket server

A model, in Dafny, of the real-time core of `sockets.py`: the shared `World`
store (a map from entity key to attribute map, with listeners called on every
`update` and `set`), the per-connection `Client` mailbox, the module-level
`clients` list with its `send_all` / `send_all_json` fan-out, and the body of
the `read_ws` loop that applies each inbound websocket frame to the world and
re-broadcasts it.

Modules:

- `Messages` (`messages.dfy`): decoded JSON values, attribute maps, inbound
  frames (`Empty`, the text `"clear"`, text that decodes, text that does not)
  and outbound messages; `EntityFields` is the lookup `msg["entity"]`,
  `msg["data"]`.
- `WorldStore` (`world.dfy`): the `World` class with fields `space`,
  `listeners` and `log` (the listener calls made so far); the pure functions
  `Lookup`, `Merge`, `Replace` that specify its operations; a sequence-of-
  mutations semantics `ApplyAll` with the last-write-wins lemmas.
- `Mailboxes` (`clients.dfy`): the `Client` FIFO queue, and `Registry`, the
  `clients` list, with `SendAll` / `SendAllJson` and the removal on
  disconnect.
- `Receive` (`receive.dfy`): `Step` / `Run`, the meaning of one frame and of
  a sequence of frames; `Dispatch` and `ReadWs`, the imperative loop, proved
  against them; lemmas on when the loop ends, what every queue receives and
  what the world becomes; the two-client scenario.

Listeners are opaque ids; calling one appends `Notify(id, entity, data)` to
the world's `log`. A client's queue is a `seq`. Frames are taken as already
decoded.

Three points of the code that the model keeps as written:

- The broadcast is done by `read_ws`, not by a listener: the only registered
  listener, `set_listener`, does nothing, and `read_ws` calls
  `send_all_json(msg)` itself after `set` (sockets.py:88-91, 108-109). The
  model broadcasts from the loop and keeps listeners abstract.
- A `"clear"` frame ends the loop: after clearing and broadcasting
  `"clear"`, the frame falls through to `json.loads("clear")`, which raises,
  and the bare `except` ends the loop (sockets.py:104-107, 110-111).
- `clients` is a list, and `clients.remove` raises on a client that is not
  listed (sockets.py:32, 130). The model keeps the list order; `Unsubscribe`
  of an absent client reports `false` and changes nothing.

## Model

| member | source | states |
|---|---|---|
| `Messages.EntityFields` | sockets.py:107-108 | defines the lookups `msg["entity"]`, `msg["data"]`: the pair when the decoded value is an object holding both fields with a string entity and object data, otherwise a failing frame |
| `Messages.EntityMessage` | sockets.py:107-108 | the lookups `msg["entity"]` and `msg["data"]` on the message `{"entity": e, "data": d}` recover exactly `e` and `d`, and the message has exactly those two fields |
| `WorldStore.Lookup` | sockets.py:79-80 | defines `space.get(entity, dict())`: the stored map, or the empty map for an absent entity |
| `WorldStore.Merge` | sockets.py:61-64 | after `update(e, k, v)`, `get(e)` is the old `get(e)` with `k` mapped to `v`; an absent `e` is created with exactly `{k: v}`; every other entity reads as before; the key set grows by `e` only |
| `WorldStore.Replace` | sockets.py:67-68 | after `set(e, d)`, `get(e)` is `d` whatever `e` held before; every other entity reads as before; the key set grows by `e` only |
| `WorldStore.ApplyAllAppend` | sockets.py:61-77 | applying two runs of mutations in a row is applying their concatenation |
| `WorldStore.MergesOverlay` | sockets.py:61-64 | under mutations that neither clear nor `set` entity `e`, `get(e)` ends as its old map overlaid with the keys the `update`s of `e` wrote, the last write of each key winning; mutations of other entities do not interfere |
| `WorldStore.LastWriteWins` | sockets.py:61-69 | after `set(e, d)` followed by mutations that only merge into `e`, `get(e)` is `d` merged with the keys updated since |
| `WorldStore.ClearForgets` | sockets.py:61-77 | after `clear()` followed by mutations that only merge into `e`, `get(e)` holds exactly the keys updated since the clear; with no such updates it is empty |
| `WorldStore.World.constructor` | sockets.py:53-56 | a new world has an empty store, no listeners, and no listener calls |
| `WorldStore.World.AddSetListener` | sockets.py:58-59 | appends the listener at the end of the list; the store is untouched |
| `WorldStore.World.Get` | sockets.py:79-80 | a present entity reads as its stored map, an absent one as the empty map; as a function of the state it cannot add the key |
| `WorldStore.World.Snapshot` | sockets.py:82-83 | the whole mapping, agreeing with `get` on every entity |
| `WorldStore.World.Update` | sockets.py:61-65 | the store becomes `Merge` of the old store; then every listener is called once, in registration order, with `e` and the post-mutation `get(e)` |
| `WorldStore.World.Set` | sockets.py:67-69 | the store becomes `Replace` of the old store; then every listener is called once, in registration order, with `e` and `d` |
| `WorldStore.World.UpdateListeners` | sockets.py:71-74 | appends exactly one call per listener, in list order, each with the entity's current map, and changes nothing else |
| `WorldStore.World.Clear` | sockets.py:76-77 | the store is empty, every entity reads as the empty map, and no listener is called |
| `Mailboxes.Client.constructor` | sockets.py:42-43 | a new client has an empty queue |
| `Mailboxes.Client.Put` | sockets.py:45-46 | appends the message at the tail of the queue |
| `Mailboxes.Client.Get` | sockets.py:48-49 | takes the head of a non-empty queue; on an empty queue, where the source suspends, takes nothing |
| `Mailboxes.FifoDelivery` | sockets.py:41-49 | a client returns every message put on it, in the order it was put |
| `Mailboxes.IndexOf` | sockets.py:130 | the position `list.remove` removes: the first occurrence of the element |
| `Mailboxes.Registry.constructor` | sockets.py:32 | the `clients` list starts empty |
| `Mailboxes.Registry.Subscribe` | sockets.py:119-120 | a fresh client with an empty queue is appended at the end of the list; no client is listed twice |
| `Mailboxes.Registry.Unsubscribe` | sockets.py:130 | a listed client is removed at its first (only) position, the others keeping their order; afterwards it is not listed |
| `Mailboxes.Broadcast` | sockets.py:34-36 | defines the queues after `send_all(m)`: the same number of queues, each with `m` appended at its tail |
| `Mailboxes.Registry.SendAll` | sockets.py:34-36 | every listed client, the sender included, gets the message exactly once at the tail of its queue, and no queue gets anything else |
| `Mailboxes.Registry.SendAllJson` | sockets.py:38-39 | the same fan-out with the JSON encoding of the value |
| `Mailboxes.DisconnectThenBroadcast` | sockets.py:130 | a client removed on disconnect receives nothing from a later broadcast, while every client still listed receives the message once |
| `Receive.Step` | sockets.py:102-111 | defines one iteration of the loop on a frame: empty changes nothing; `"clear"` empties the world, broadcasts `"clear"` and ends the loop; a well-formed entity message is `set`, its listener calls logged and the message broadcast; anything else ends the loop unchanged |
| `Receive.Run` | sockets.py:100-111 | defines the `while True` loop over the frames read: each frame is one `Step` until a step ends the loop, after which nothing changes |
| `Receive.StepSpec` | sockets.py:102-111 | one frame: the loop ends exactly on `"clear"` or a frame that fails to decode, lacks a field, or whose fields have the wrong type (see `Messages.EntityFields` under Left out); the world takes exactly the frame's mutations (`clear`, or `set(entity, data)`); every queue gets exactly the frame's messages (`"clear"`, or the message itself); listeners are called only for an accepted entity message, with its data; an empty or failing frame changes nothing |
| `Receive.Processed` | sockets.py:100-111 | the frames the loop reads: all of them, or those up to and including the first one that raises |
| `Receive.RunStopsIffHalts` | sockets.py:100-111 | the loop has ended exactly when one of the frames read so far raised |
| `Receive.RunAppend` | sockets.py:101-102 | reading more frames continues from where the loop was, and does nothing once it has ended |
| `Receive.RunNext` | sockets.py:101-102 | reading one more frame is one more step of a loop that has not ended |
| `Receive.RunSkipsRest` | sockets.py:100-111 | no frame after the first one that raises has any effect |
| `Receive.RunFanOut` | sockets.py:104-109 | every listed client receives the same messages, each once, in the order the frames were read |
| `Receive.RunNotifies` | sockets.py:104-108 | the listener log gains, in the order the frames were read, one call per listener for each accepted entity message, with its entity and data, and nothing for any other frame |
| `Receive.RunMutates` | sockets.py:104-108 | the world ends as the mutations of the frames read leave it, in order |
| `Receive.ClearAndBroadcast` | sockets.py:104-106 | `"clear"`: the store is emptied, no listener is called, and `"clear"` goes once to every client |
| `Receive.SetAndBroadcast` | sockets.py:107-109 | an entity message: `set(entity, data)`, its listener calls, then the decoded message goes once to every client |
| `Receive.Dispatch` | sockets.py:102-111 | one iteration of the loop does on the world and the clients exactly what `Step` says, and reports whether the loop ended |
| `Receive.ReadWs` | sockets.py:98-111 | the loop over the frames received does exactly what `Run` says, and reports whether it ended |
| `Receive.StepEntityTwo` | sockets.py:107-109 | with two clients and no listeners, an entity message replaces the entity and is echoed to both queues |
| `Receive.RunTwo` | sockets.py:101-102 | two frames read in a row are two steps, the second only if the first did not end the loop |
| `Receive.ScenarioEcho` | sockets.py:107-109 | two entity messages for one entity: the second one's data wins (no merge) and both clients receive both messages in order |
| `Receive.ScenarioClear` | sockets.py:104-107 | `"clear"` empties the world, reaches both clients, and ends the loop |
| `Receive.TwoClientScenario` | sockets.py:104-109 | clients A and B; A sends two messages for x1 and then `"clear"`: both queues hold the two messages then `"clear"`, x1 reads as the second data and then as empty, and A's loop has ended |

## Left out

- The Flask routes `hello`, the `update` stub, `world`, `get_entity`,
  `clear`, `flask_post_json` and `app.run` (sockets.py:93-96, 137-173): request
  handling around `get`, `world` and `clear` with no logic of their own.
- The gevent side of `subscribe_socket` (sockets.py:114-133): spawning and
  killing the reader, the send loop that drains the client's queue onto the
  socket, `ws.send` / `ws.receive` and transport errors. Only the
  registration (`Subscribe`) and the removal in the `finally` block
  (`Unsubscribe`) are modelled, as list operations; the frames a connection
  receives are a parameter of `ReadWs`.
- Mailboxes.Client.Get: does not block on an empty queue; it returns `None`
  and takes nothing, standing for the suspension.
- Mailboxes.Registry.Unsubscribe: removing a client that is not listed raises
  `ValueError` in the source; here it returns `false` and changes nothing.
- JSON encoding and decoding (sockets.py:39, 107): frames are already
  decoded, numbers are integers, and an outbound entity message is the
  decoded value that `json.dumps` would encode.
- Messages.EntityFields: a decoded object whose `entity` is not a string, or
  whose `data` is not an object, is treated as a failing frame that ends the
  loop. The source agrees when the entity is an array or an object
  (`self.space[entity] = data` raises on the unhashable key before any
  change). It stores the frame and goes on when the entity is a number, a
  boolean or null, or when a string entity comes with non-object data.
- Python dict aliasing: `update` mutates in place the dict that an earlier
  `set` stored, which the sender of that `set` may still hold
  (sockets.py:62-63). Attribute maps are values here.
- `set_listener` (sockets.py:88-91) is a no-op; listeners are opaque ids
  whose calls are recorded, not run.
- Concurrency between connections: each `ReadWs` call runs alone; the
  interleaving of several readers and senders is not modelled.
- `print` logging.
