/**
 The outside world of a chat turn. Providers, host tools and the metadata hook are
 arbitrary policies: each answers from everything it has been asked so far, so a
 script, a stateful service or a failing one is an instance.
 */
module World {
  import opened Results
  import opened JsonValues
  import opened Fragments

  /** One completed call of the host's `invoke_tool`. */
  datatype Call = Call(name: Json, args: Json, result: Outcome<Json>)

  datatype Host = Host(
    tool: (seq<Call>, Json, Json) -> Outcome<Json>,
    hook: Option<(seq<Call>, Json, Json) -> HookReply>)

  /**
   Everything observable so far: the lists sent to the model, the tool calls made, and
   the two accumulators of the current turn.
   */
  datatype World = World(asked: seq<seq<Json>>, calls: seq<Call>, refs: seq<Json>, payload: Dict)

  function Ask(w: World, messages: seq<Json>): World {
    w.(asked := w.asked + [messages])
  }

  /** A new turn starts with empty accumulators. */
  function StartTurn(w: World): World {
    w.(refs := [], payload := [])
  }

  function HookAnswer(host: Host, calls: seq<Call>, name: Json, result: Json): HookReply {
    if host.hook.None? then Answer(Null) else host.hook.value(calls, name, result)
  }

  /** The wrapped callback: run the host's tool, then capture the metadata of its result. */
  function Invoke(host: Host, w: World, name: Json, args: Json): (World, Outcome<Json>) {
    var result := host.tool(w.calls, name, args);
    var w1 := w.(calls := w.calls + [Call(name, args, result)]);
    if result.Raised? then (w1, Raised) else
    var answer := HookAnswer(host, w1.calls, name, result.value);
    var w2 := w1.(refs := w1.refs + RefsOf(answer), payload := Update(w1.payload, PairsOf(answer)));
    (w2, if Usable(answer) then result else Raised)
  }

  /** A Python list: an object that several names can share. */
  class PyList {
    var items: seq<Json>

    constructor (items: seq<Json>)
      ensures this.items == items
    {
      this.items := items;
    }

    method Append(x: Json)
      modifies this
      ensures items == old(items) + [x]
    {
      items := items + [x];
    }
  }

  /** The callback handed to a connection, with the accumulators its closure extends. */
  class Turn {
    const host: Host
    var world: World

    constructor (host: Host, world: World)
      ensures this.host == host && this.world == StartTurn(world)
    {
      this.host := host;
      this.world := StartTurn(world);
    }

    method Request(messages: PyList)
      modifies this
      ensures world == Ask(old(world), messages.items)
    {
      world := world.(asked := world.asked + [messages.items]);
    }

    /** `capturing_invoke_tool`, or the host's own callback when there is no hook. */
    method InvokeTool(name: Json, args: Json) returns (result: Outcome<Json>)
      modifies this
      ensures (world, result) == Invoke(host, old(world), name, args)
    {
      result := host.tool(world.calls, name, args);
      world := world.(calls := world.calls + [Call(name, args, result)]);
      assert world.refs + [] == world.refs;
      if result.Raised? || host.hook.None? {
        return;
      }
      var fragment := Fragment(host.hook.value(world.calls, name, result.value));
      var refs, payload := GetOrNull(fragment, REFS), GetOrNull(fragment, LLM_PAYLOAD_FRAGMENT);
      if !fragment.Obj? {
        return Raised;
      }
      if Truthy(refs) {
        if Iterated(refs).None? {
          return Raised;
        }
        world := world.(refs := world.refs + Iterated(refs).value);
      }
      if Truthy(payload) {
        world := world.(payload := Update(world.payload, Written(payload)));
        if !Updatable(payload) {
          return Raised;
        }
      }
    }
  }
}
