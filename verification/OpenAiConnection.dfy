/** `OpenAiConnection.chat_with_tools`: the caller's list grows in place. */
module OpenAiConnection {
  import opened Results
  import opened JsonValues
  import opened World
  import opened Rounds
  import opened Conservation

  lemma {:induction false} FirstCallSkips(output: seq<Json>, k: nat)
    requires k <= |output| && forall i :: 0 <= i < k ==> !HasType(output[i], "function_call")
    ensures FirstCall(output) == FirstCall(output[k..])
  {
    if k > 0 {
      FirstCallSkips(output[1..], k - 1);
      assert output[1..][k - 1..] == output[k..];
    } else {
      assert output[0..] == output;
    }
  }

  class OpenAiConnection {
    const create: OpenAiClient

    constructor (create: OpenAiClient)
      ensures this.create == create
    {
      this.create := create;
    }

    /** Run one call, then append it and its output; a raising tool appends nothing. */
    method RunFunctionCall(item: Json, inputMessages: PyList, turn: Turn) returns (ok: bool)
      modifies inputMessages, turn
      ensures var (w, result) := InvokeItem(turn.host, item, old(turn.world));
        && turn.world == w
        && ok == result.Ok?
        && inputMessages.items == old(inputMessages.items) +
          (if result.Ok? then [item, CallOutput(item, result.value)] else [])
    {
      var parsedArgs := ParseArguments(GetOrNull(item, "arguments"));
      var result := turn.InvokeTool(GetOrNull(item, "name"), parsedArgs);
      if result.Raised? {
        return false;
      }
      inputMessages.Append(item);
      inputMessages.Append(CallOutput(item, result.value));
      return true;
    }

    /**
     The items of one reply: run the first call, or commit the stashed messages when
     there is none. The result tells whether another round follows.
     */
    method HandleOutput(reply: OpenAiReply, inputMessages: PyList, turn: Turn) returns (more: Outcome<bool>)
      modifies inputMessages, turn
      ensures var round := OpenAiAnswer(turn.host, reply, old(turn.world));
        && turn.world == round.world
        && inputMessages.items == old(inputMessages.items) + round.added
        && more == if round.Crash? then Raised else Ok(round.More?)
    {
      var pendingMessageItems: seq<Json> := [];
      var i := 0;
      while i < |reply.output|
        invariant 0 <= i <= |reply.output|
        invariant turn.world == old(turn.world) && inputMessages.items == old(inputMessages.items)
        invariant forall k :: 0 <= k < i ==> !HasType(reply.output[k], "function_call")
        invariant pendingMessageItems == MessageItems(reply.output[..i])
      {
        var item := reply.output[i];
        if HasType(item, "function_call") {
          FirstCallSkips(reply.output, i);
          var ok := RunFunctionCall(item, inputMessages, turn);
          return if ok then Ok(true) else Raised;
        }
        MessageItemsExtend(reply.output, i);
        if HasType(item, "message") {
          pendingMessageItems := pendingMessageItems + [item];
        }
        i := i + 1;
      }
      assert reply.output[..i] == reply.output;
      FirstCallSkips(reply.output, |reply.output|);
      var j := 0;
      while j < |pendingMessageItems|
        invariant 0 <= j <= |pendingMessageItems|
        invariant inputMessages.items == old(inputMessages.items) + pendingMessageItems[..j]
        invariant turn.world == old(turn.world)
      {
        inputMessages.Append(pendingMessageItems[j]);
        j := j + 1;
      }
      assert pendingMessageItems[..j] == pendingMessageItems;
      return Ok(false);
    }

    method ChatWithTools(inputMessages: PyList, turn: Turn, maxToolCallRounds: nat)
      returns (response: Outcome<Option<Response>>, finalMessages: PyList)
      modifies inputMessages, turn
      ensures finalMessages == inputMessages
      ensures LoopResult(response, inputMessages.items, turn.world)
        == Rounds.ChatWithTools(OpenAi(create), turn.host, old(inputMessages.items), maxToolCallRounds, old(turn.world))
    {
      finalMessages := inputMessages;
      var lastResponse: Option<Response> := None;
      var round := 0;
      while round < maxToolCallRounds
        invariant round <= maxToolCallRounds
        invariant Loop(OpenAi(create), turn.host, old(inputMessages.items), maxToolCallRounds, None, old(turn.world))
          == Loop(OpenAi(create), turn.host, inputMessages.items, maxToolCallRounds - round, lastResponse, turn.world)
      {
        assert inputMessages.items + [] == inputMessages.items;
        turn.Request(inputMessages);
        var answer := create(turn.world.asked, turn.world.calls);
        if answer.Raised? {
          return Raised, inputMessages;
        }
        var reply := answer.value;
        lastResponse := Some(FromOpenAi(reply));
        if reply.error {
          return Ok(lastResponse), inputMessages;
        }
        var more := HandleOutput(reply, inputMessages, turn);
        if more.Raised? {
          return Raised, inputMessages;
        }
        if !more.value {
          return Ok(lastResponse), inputMessages;
        }
        round := round + 1;
      }
      return Ok(lastResponse), inputMessages;
    }
  }
}
