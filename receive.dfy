/** The body of `read_ws`: each inbound frame of one connection is applied to
    the shared world and re-broadcast to every client, until a frame raises. */
module Receive {
  import opened Messages
  import opened WorldStore
  import opened Mailboxes

  /** What the read loop can change: the world's contents, the listener calls
      made so far, and the queue of every listed client. */
  datatype State = State(space: Space, log: seq<Notification>, queues: seq<seq<Outbound>>)

  /** After a frame the loop either reads the next one or has ended, the
      exception having been caught. */
  datatype Outcome = Continue(state: State) | Stopped(state: State)

  /** A well-formed entity message, which the loop applies and goes on. */
  predicate Accepted(f: Frame)
  {
    f.Json? && EntityFields(f.v).Some?
  }

  /** A frame that ends the loop: one that does not decode or lacks a field,
      and "clear", which after clearing falls through to `json.loads("clear")`. */
  predicate Halting(f: Frame)
  {
    f.ClearText? || f.NotJson? || (f.Json? && EntityFields(f.v).None?)
  }

  /** The messages a frame broadcasts. */
  function Emit(f: Frame): seq<Outbound>
  {
    match f
    case ClearText => [ClearNotice]
    case Json(v) => if EntityFields(v).Some? then [JsonText(v)] else []
    case _ => []
  }

  /** The world mutations a frame performs. */
  function OpsOf(f: Frame): seq<Op>
  {
    match f
    case ClearText => [ClearOp]
    case Json(v) =>
      (match EntityFields(v)
       case Some((e, d)) => [SetOp(e, d)]
       case None => [])
    case _ => []
  }

  /** One iteration of the loop on frame `f`. */
  function Step(s: State, listeners: seq<ListenerId>, f: Frame): Outcome
  {
    match f
    case Empty => Continue(s)
    case ClearText => Stopped(State(map[], s.log, Broadcast(s.queues, ClearNotice)))
    case NotJson => Stopped(s)
    case Json(v) =>
      match EntityFields(v)
      case None => Stopped(s)
      case Some((e, d)) =>
        var space := Replace(s.space, e, d);
        Continue(State(space, s.log + Notifications(listeners, e, Lookup(space, e)), Broadcast(s.queues, JsonText(v))))
  }

  /** The outcome of one frame: the loop ends exactly on a halting frame; the
      world takes the frame's mutations; every queue gets the frame's messages;
      the listeners are called only for an accepted entity message, with its
      data; an empty or failing frame changes nothing. */
  lemma StepSpec(s: State, listeners: seq<ListenerId>, f: Frame)
    ensures Step(s, listeners, f).Stopped? <==> Halting(f)
    ensures Step(s, listeners, f).state.space == ApplyAll(s.space, OpsOf(f))
    ensures |Step(s, listeners, f).state.queues| == |s.queues|
    ensures forall i :: 0 <= i < |s.queues| ==> Step(s, listeners, f).state.queues[i] == s.queues[i] + Emit(f)
    ensures Accepted(f) ==> var (e, d) := EntityFields(f.v).value;
                            Step(s, listeners, f).state.log == s.log + Notifications(listeners, e, d)
    ensures !Accepted(f) ==> Step(s, listeners, f).state.log == s.log
    ensures (f.Empty? || (Halting(f) && !f.ClearText?)) ==> Step(s, listeners, f).state == s
  {
  }

  /** The loop over the frames received so far, first to last. */
  function Run(s: State, listeners: seq<ListenerId>, frames: seq<Frame>): Outcome
    decreases |frames|
  {
    if frames == [] then Continue(s)
    else
      match Run(s, listeners, frames[..|frames| - 1])
      case Stopped(t) => Stopped(t)
      case Continue(t) => Step(t, listeners, frames[|frames| - 1])
  }

  predicate HaltsIn(frames: seq<Frame>)
  {
    exists i :: 0 <= i < |frames| && Halting(frames[i])
  }

  /** The frames the loop reads: all of them, or those up to and including the
      first halting one. */
  function Processed(frames: seq<Frame>): (r: seq<Frame>)
    ensures r <= frames
    ensures !HaltsIn(frames) ==> r == frames
    ensures HaltsIn(frames) ==> r != [] && Halting(r[|r| - 1]) && !HaltsIn(r[..|r| - 1])
    decreases |frames|
  {
    if frames == [] then []
    else if HaltsIn(frames[..|frames| - 1]) then Processed(frames[..|frames| - 1])
    else frames
  }

  /** Every message the frames broadcast, in order. */
  function EmitAll(frames: seq<Frame>): seq<Outbound>
    decreases |frames|
  {
    if frames == [] then [] else EmitAll(frames[..|frames| - 1]) + Emit(frames[|frames| - 1])
  }

  /** The listener calls a frame makes: one per listener, with the entity
      and its data, for an accepted entity message; none otherwise. */
  function CallsOf(listeners: seq<ListenerId>, f: Frame): seq<Notification>
  {
    if Accepted(f) then
      var (e, d) := EntityFields(f.v).value;
      Notifications(listeners, e, d)
    else []
  }

  /** Every listener call the frames make, in order. */
  function CallsAll(listeners: seq<ListenerId>, frames: seq<Frame>): seq<Notification>
    decreases |frames|
  {
    if frames == [] then [] else CallsAll(listeners, frames[..|frames| - 1]) + CallsOf(listeners, frames[|frames| - 1])
  }

  /** Every world mutation the frames perform, in order. */
  function OpsAll(frames: seq<Frame>): seq<Op>
    decreases |frames|
  {
    if frames == [] then [] else OpsAll(frames[..|frames| - 1]) + OpsOf(frames[|frames| - 1])
  }

  /** The loop has ended exactly when some frame raised. */
  lemma {:induction false} RunStopsIffHalts(s: State, listeners: seq<ListenerId>, frames: seq<Frame>)
    ensures Run(s, listeners, frames).Stopped? <==> HaltsIn(frames)
    decreases |frames|
  {
    if frames != [] {
      var front := frames[..|frames| - 1];
      RunStopsIffHalts(s, listeners, front);
      StepSpec(Run(s, listeners, front).state, listeners, frames[|frames| - 1]);
      assert forall i :: 0 <= i < |front| ==> front[i] == frames[i];
    }
  }

  /** Reading more frames continues from where the loop was, and does nothing
      once it has ended. */
  lemma {:induction false} RunAppend(s: State, listeners: seq<ListenerId>, a: seq<Frame>, b: seq<Frame>)
    ensures Run(s, listeners, a + b) == match Run(s, listeners, a)
                                         case Stopped(t) => Stopped(t)
                                         case Continue(t) => Run(t, listeners, b)
    decreases |b|
  {
    if b == [] {
      assert a + b == a;
    } else {
      var front := b[..|b| - 1];
      assert (a + b)[..|a + b| - 1] == a + front;
      assert (a + b)[|a + b| - 1] == b[|b| - 1];
      RunAppend(s, listeners, a, front);
    }
  }

  /** No frame after the first halting one is ever read. */
  lemma {:induction false} RunSkipsRest(s: State, listeners: seq<ListenerId>, frames: seq<Frame>)
    ensures Run(s, listeners, frames) == Run(s, listeners, Processed(frames))
  {
    var p := Processed(frames);
    if HaltsIn(frames) {
      assert HaltsIn(p) by {
        assert Halting(p[|p| - 1]);
      }
      RunStopsIffHalts(s, listeners, p);
      assert frames == p + frames[|p|..];
      RunAppend(s, listeners, p, frames[|p|..]);
    }
  }

  /** Fan-out: every listed client receives the same messages, each exactly
      once and in the order the frames were read. */
  lemma {:induction false} RunFanOut(s: State, listeners: seq<ListenerId>, frames: seq<Frame>)
    ensures |Run(s, listeners, frames).state.queues| == |s.queues|
    ensures forall i :: 0 <= i < |s.queues| ==>
              Run(s, listeners, frames).state.queues[i] == s.queues[i] + EmitAll(Processed(frames))
    decreases |frames|
  {
    if frames != [] {
      var front := frames[..|frames| - 1];
      RunFanOut(s, listeners, front);
      RunStopsIffHalts(s, listeners, front);
      if !HaltsIn(front) {
        var t := Run(s, listeners, front).state;
        var f := frames[|frames| - 1];
        StepSpec(t, listeners, f);
        forall i | 0 <= i < |s.queues|
          ensures Run(s, listeners, frames).state.queues[i] == s.queues[i] + EmitAll(Processed(frames))
        {
          calc {
            Run(s, listeners, frames).state.queues[i];
            t.queues[i] + Emit(f);
            (s.queues[i] + EmitAll(front)) + Emit(f);
            s.queues[i] + EmitAll(frames);
          }
        }
      }
    }
  }

  /** The listener log gains the calls of the read frames, in order: for each
      accepted entity message, every listener once with its data. */
  lemma {:induction false} RunNotifies(s: State, listeners: seq<ListenerId>, frames: seq<Frame>)
    ensures Run(s, listeners, frames).state.log == s.log + CallsAll(listeners, Processed(frames))
    decreases |frames|
  {
    if frames == [] {
      assert s.log + [] == s.log;
    } else {
      var front := frames[..|frames| - 1];
      RunNotifies(s, listeners, front);
      RunStopsIffHalts(s, listeners, front);
      if !HaltsIn(front) {
        var f := frames[|frames| - 1];
        StepSpec(Run(s, listeners, front).state, listeners, f);
        assert s.log + CallsAll(listeners, front) + CallsOf(listeners, f)
            == s.log + (CallsAll(listeners, front) + CallsOf(listeners, f));
      }
    }
  }

  /** The world ends as the mutations of the read frames leave it. */
  lemma {:induction false} RunMutates(s: State, listeners: seq<ListenerId>, frames: seq<Frame>)
    ensures Run(s, listeners, frames).state.space == ApplyAll(s.space, OpsAll(Processed(frames)))
    decreases |frames|
  {
    if frames != [] {
      var front := frames[..|frames| - 1];
      RunMutates(s, listeners, front);
      RunStopsIffHalts(s, listeners, front);
      if !HaltsIn(front) {
        StepSpec(Run(s, listeners, front).state, listeners, frames[|frames| - 1]);
        ApplyAllAppend(s.space, OpsAll(front), OpsOf(frames[|frames| - 1]));
      }
    }
  }

  /** The abstract state of a world and a list of clients. */
  function StateOf(world: World, registry: Registry): State
    reads world, registry, registry.members
  {
    State(world.space, world.log, QueuesOf(registry.members))
  }

  /** `myWorld.clear(); send_all("clear")` in `read_ws`: the world is
      emptied, then "clear" is put on every client's queue. No listener is
      called. */
  method ClearAndBroadcast(world: World, registry: Registry)
    requires registry.Valid()
    modifies world`space, registry.members
    ensures world.space == map[] && world.log == old(world.log)
    ensures QueuesOf(registry.members) == Broadcast(old(QueuesOf(registry.members)), ClearNotice)
  {
    world.Clear();
    registry.SendAll(ClearNotice);
  }

  /** `myWorld.set(msg["entity"], msg["data"]); send_all_json(msg)` in
      `read_ws`: the entity is set, then the decoded message is re-broadcast
      as it was received. */
  method SetAndBroadcast(world: World, registry: Registry, v: Value, entity: string, data: Attrs)
    requires registry.Valid() && EntityFields(v) == Some((entity, data))
    modifies world`space, world`log, registry.members
    ensures world.space == Replace(old(world.space), entity, data)
    ensures world.log == old(world.log) + Notifications(world.listeners, entity, data)
    ensures QueuesOf(registry.members) == Broadcast(old(QueuesOf(registry.members)), JsonText(v))
  {
    world.Set(entity, data);
    registry.SendAllJson(v);
  }

  /** The body of the loop for one frame: "clear" clears the world, broadcasts
      "clear" and then raises; a well-formed entity message is set and
      re-broadcast as received; anything else raises before any change. */
  method Dispatch(world: World, registry: Registry, f: Frame) returns (stopped: bool)
    requires registry.Valid()
    modifies world`space, world`log, registry.members
    ensures var r := Step(old(StateOf(world, registry)), world.listeners, f);
            stopped == r.Stopped? && StateOf(world, registry) == r.state
  {
    stopped := false;
    match f {
      case Empty =>
      case ClearText =>
        ClearAndBroadcast(world, registry);
        stopped := true;
      case NotJson =>
        stopped := true;
      case Json(v) =>
        var fields := EntityFields(v);
        if fields.Some? {
          SetAndBroadcast(world, registry, v, fields.value.0, fields.value.1);
        } else {
          stopped := true;
        }
    }
  }

  /** Reading one more frame: the loop either had already ended, or takes one step. */
  lemma RunNext(s: State, listeners: seq<ListenerId>, frames: seq<Frame>, i: nat)
    requires i < |frames|
    ensures Run(s, listeners, frames[..i + 1]) == match Run(s, listeners, frames[..i])
                                                  case Stopped(t) => Stopped(t)
                                                  case Continue(t) => Step(t, listeners, frames[i])
  {
    assert frames[..i + 1][..i] == frames[..i];
  }

  /** `read_ws` over the frames received so far; `stopped` says whether the
      loop has ended. The connection's own client is not used by the loop. */
  method ReadWs(world: World, registry: Registry, frames: seq<Frame>) returns (stopped: bool)
    requires registry.Valid()
    modifies world`space, world`log, registry.members
    ensures var r := Run(old(StateOf(world, registry)), world.listeners, frames);
            stopped == r.Stopped? && StateOf(world, registry) == r.state
  {
    ghost var init := StateOf(world, registry);
    ghost var listeners := world.listeners;
    stopped := false;
    var i := 0;
    while i < |frames|
      invariant 0 <= i <= |frames|
      invariant world.listeners == listeners
      invariant Run(init, listeners, frames[..i]) == Continue(StateOf(world, registry))
    {
      ghost var t := StateOf(world, registry);
      RunNext(init, listeners, frames, i);
      stopped := Dispatch(world, registry, frames[i]);
      assert Run(init, listeners, frames[..i + 1]) == Step(t, listeners, frames[i]);
      if stopped {
        assert frames == frames[..i + 1] + frames[i + 1..];
        RunAppend(init, listeners, frames[..i + 1], frames[i + 1..]);
        return;
      }
      i := i + 1;
    }
    assert frames[..i] == frames;
  }

  /** A well-formed entity message with two clients: the entity is
      replaced, every listener is called with its data, and the message is
      echoed to both queues. */
  lemma StepEntityTwo(space: Space, log: seq<Notification>, q0: seq<Outbound>, q1: seq<Outbound>,
                      listeners: seq<ListenerId>, v: Value, entity: string, data: Attrs)
    requires EntityFields(v) == Some((entity, data))
    ensures Step(State(space, log, [q0, q1]), listeners, Json(v))
            == Continue(State(space[entity := data], log + Notifications(listeners, entity, data),
                              [q0 + [JsonText(v)], q1 + [JsonText(v)]]))
  {
    assert Lookup(space[entity := data], entity) == data;
    assert Broadcast([q0, q1], JsonText(v)) == [q0 + [JsonText(v)], q1 + [JsonText(v)]];
  }

  /** Two frames read in a row. */
  lemma RunTwo(s: State, listeners: seq<ListenerId>, f1: Frame, f2: Frame)
    ensures Run(s, listeners, [f1, f2]) == match Step(s, listeners, f1)
                                           case Stopped(t) => Stopped(t)
                                           case Continue(t) => Step(t, listeners, f2)
  {
    var frames := [f1, f2];
    RunNext(s, listeners, frames, 0);
    RunNext(s, listeners, frames, 1);
    assert frames[..0] == [] && frames[..2] == frames;
  }

  /** The first two frames of the two-client scenario below: two entity
      messages for the same entity are set, in turn, so the second one's data
      wins; the listeners are called for each, in turn; and both messages are
      echoed, in order, to both queues. */
  lemma ScenarioEcho(listeners: seq<ListenerId>, first: Value, second: Value, entity: string, data1: Attrs, data2: Attrs)
    requires EntityFields(first) == Some((entity, data1))
    requires EntityFields(second) == Some((entity, data2))
    ensures Run(State(map[], [], [[], []]), listeners, [Json(first), Json(second)])
            == Continue(State(map[entity := data2],
                              Notifications(listeners, entity, data1) + Notifications(listeners, entity, data2),
                              [[JsonText(first), JsonText(second)], [JsonText(first), JsonText(second)]]))
  {
    var r, u := JsonText(first), JsonText(second);
    var n1 := Notifications(listeners, entity, data1);
    StepEntityTwo(map[], [], [], [], listeners, first, entity, data1);
    assert [] + [r] == [r] && [] + n1 == n1;
    StepEntityTwo(map[entity := data1], n1, [r], [r], listeners, second, entity, data2);
    assert map[entity := data1][entity := data2] == map[entity := data2];
    assert [r] + [u] == [r, u];
    RunTwo(State(map[], [], [[], []]), listeners, Json(first), Json(second));
  }

  /** The last frame of the two-client scenario below: "clear" empties the
      world, calls no listener, is echoed to both queues, and ends the loop. */
  lemma ScenarioClear(listeners: seq<ListenerId>, q0: seq<Outbound>, q1: seq<Outbound>, space: Space, log: seq<Notification>)
    ensures Run(State(space, log, [q0, q1]), listeners, [ClearText])
            == Stopped(State(map[], log, [q0 + [ClearNotice], q1 + [ClearNotice]]))
  {
    assert Broadcast([q0, q1], ClearNotice) == [q0 + [ClearNotice], q1 + [ClearNotice]];
    assert [ClearText][..0] == [];
  }

  /** Two connected clients A and B, an empty world with any listeners (the
      program registers one, `set_listener`), and A's loop. A sends two
      entity messages for the same entity, say x1 with color red and then
      with color blue: both queues receive both messages, in order, each
      listener is called with the red and then the blue data, and x1 then
      reads as the second data, not a merge. A then sends "clear": both
      queues receive it, no listener is called, x1 reads as empty, and A's
      loop has ended. */
  lemma TwoClientScenario(listeners: seq<ListenerId>, first: Value, second: Value, entity: string, data1: Attrs, data2: Attrs)
    requires EntityFields(first) == Some((entity, data1)) && EntityFields(second) == Some((entity, data2))
    ensures var afterTwo := Run(State(map[], [], [[], []]), listeners, [Json(first), Json(second)]);
            afterTwo.Continue? && Lookup(afterTwo.state.space, entity) == data2 &&
            afterTwo.state.log == Notifications(listeners, entity, data1) + Notifications(listeners, entity, data2) &&
            afterTwo.state.queues == [[JsonText(first), JsonText(second)], [JsonText(first), JsonText(second)]]
    ensures var afterClear := Run(State(map[], [], [[], []]), listeners, [Json(first), Json(second), ClearText]);
            afterClear.Stopped? && Lookup(afterClear.state.space, entity) == map[] &&
            afterClear.state.log == Notifications(listeners, entity, data1) + Notifications(listeners, entity, data2) &&
            afterClear.state.queues == [[JsonText(first), JsonText(second), ClearNotice],
                                        [JsonText(first), JsonText(second), ClearNotice]]
  {
    var r, u := JsonText(first), JsonText(second);
    var log := Notifications(listeners, entity, data1) + Notifications(listeners, entity, data2);
    ScenarioEcho(listeners, first, second, entity, data1, data2);
    ScenarioClear(listeners, [r, u], [r, u], map[entity := data2], log);
    RunAppend(State(map[], [], [[], []]), listeners, [Json(first), Json(second)], [ClearText]);
    assert [Json(first), Json(second)] + [ClearText] == [Json(first), Json(second), ClearText];
    assert [r, u] + [ClearNotice] == [r, u, ClearNotice];
  }
}
