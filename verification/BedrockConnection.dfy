/** `BedrockConnection.chat_with_tools`: a normalised copy grows, the caller's list does not. */
module BedrockConnection {
  import opened Results
  import opened JsonValues
  import opened World
  import opened Rounds

  /** A run of blocks whose first results are already known. */
  function Resumed(done: seq<Json>, rest: (World, Outcome<seq<Json>>)): (World, Outcome<seq<Json>>) {
    (rest.0, if rest.1.Ok? then Ok(done + rest.1.value) else Raised)
  }

  class BedrockConnection {
    const converse: BedrockClient

    constructor (converse: BedrockClient)
      ensures this.converse == converse
    {
      this.converse := converse;
    }

    /** Every `toolUse` block of one assistant message, in order. */
    method RunToolUses(blocks: seq<Json>, turn: Turn) returns (results: Outcome<seq<Json>>)
      modifies turn
      ensures (turn.world, results) == RunBlocks(turn.host, blocks, old(turn.world))
    {
      var toolResults: seq<Json> := [];
      var i := 0;
      assert blocks[0..] == blocks;
      ghost var all := RunBlocks(turn.host, blocks, turn.world);
      assert all.1.Ok? ==> [] + all.1.value == all.1.value;
      while i < |blocks|
        invariant 0 <= i <= |blocks|
        invariant RunBlocks(turn.host, blocks, old(turn.world))
          == Resumed(toolResults, RunBlocks(turn.host, blocks[i..], turn.world))
      {
        var toolUse := ToolUse(blocks[i]);
        assert blocks[i..][1..] == blocks[i + 1..];
        if Truthy(toolUse) {
          var result := turn.InvokeTool(GetOrNull(toolUse, "name"), OrEmptyDict(GetOrNull(toolUse, "input")));
          if result.Raised? {
            return Raised;
          }
          ghost var rest := RunBlocks(turn.host, blocks[i + 1..], turn.world);
          if rest.1.Ok? {
            assert toolResults + ([ToolResultBlock(toolUse, result.value)] + rest.1.value)
              == (toolResults + [ToolResultBlock(toolUse, result.value)]) + rest.1.value;
          }
          toolResults := toolResults + [ToolResultBlock(toolUse, result.value)];
        }
        i := i + 1;
      }
      assert toolResults + [] == toolResults;
      return Ok(toolResults);
    }

    method ChatWithTools(inputMessages: PyList, turn: Turn, maxToolCallRounds: nat)
      returns (response: Outcome<Option<Response>>, finalMessages: PyList)
      modifies turn
      ensures fresh(finalMessages)
      ensures inputMessages.items == old(inputMessages.items)
      ensures LoopResult(response, finalMessages.items, turn.world)
        == Rounds.ChatWithTools(
             Bedrock(converse), turn.host, old(inputMessages.items), maxToolCallRounds, old(turn.world))
    {
      finalMessages := new PyList(EnsureAll(inputMessages.items));
      var lastResponse: Option<Response> := None;
      ghost var entered := finalMessages.items;
      var round := 0;
      while round < maxToolCallRounds
        invariant round <= maxToolCallRounds && fresh(finalMessages)
        invariant Loop(Bedrock(converse), turn.host, entered, maxToolCallRounds, None, old(turn.world))
          == Loop(Bedrock(converse), turn.host, finalMessages.items,
               maxToolCallRounds - round, lastResponse, turn.world)
      {
        ghost var before := finalMessages.items;
        turn.Request(finalMessages);
        var answer := converse(turn.world.asked, turn.world.calls);
        if answer.Raised? {
          return Raised, finalMessages;
        }
        var reply := answer.value;
        lastResponse := Some(FromBedrock(reply));
        finalMessages.Append(reply.message);
        if reply.stopReason != "tool_use" {
          return Ok(lastResponse), finalMessages;
        }
        var toolResults := RunToolUses(Blocks(reply.message), turn);
        if toolResults.Raised? {
          return Raised, finalMessages;
        }
        finalMessages.Append(FollowUp(toolResults.value));
        assert finalMessages.items == before + [reply.message, FollowUp(toolResults.value)];
        round := round + 1;
      }
      return Ok(lastResponse), finalMessages;
    }
  }
}
