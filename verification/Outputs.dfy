/** Where the tool outputs of a transcript come from: each frames the result of a call that was made. */
module Outputs {
  import opened Results
  import opened JsonValues
  import opened JsonText
  import opened ToolData
  import opened World
  import opened Rounds
  import opened Conservation

  // ---- the calls of a loop are the host's -----------------------------------

  /** From `start` on, every call holds what the host's tool gave at that point of the history. */
  ghost predicate CallsMade(host: Host, calls: seq<Call>, start: nat) {
    forall k :: start <= k < |calls| ==> calls[k].result == host.tool(calls[..k], calls[k].name, calls[k].args)
  }

  lemma {:induction false} InvokeMade(host: Host, start: nat, w: World, name: Json, args: Json)
    requires CallsMade(host, w.calls, start)
    ensures var w1 := Invoke(host, w, name, args).0; w.calls <= w1.calls && CallsMade(host, w1.calls, start)
  {
    var calls := Invoke(host, w, name, args).0.calls;
    assert calls[..|w.calls|] == w.calls;
    forall k | start <= k < |calls|
      ensures calls[k].result == host.tool(calls[..k], calls[k].name, calls[k].args)
    {
      assert k < |w.calls| ==> calls[..k] == w.calls[..k];
    }
  }

  lemma {:induction false} BlocksMade(host: Host, start: nat, blocks: seq<Json>, w: World)
    requires CallsMade(host, w.calls, start)
    ensures var w1 := RunBlocks(host, blocks, w).0; w.calls <= w1.calls && CallsMade(host, w1.calls, start)
  {
    if blocks != [] {
      var use := ToolUse(blocks[0]);
      if Truthy(use) {
        var (name, args) := (GetOrNull(use, "name"), OrEmptyDict(GetOrNull(use, "input")));
        InvokeMade(host, start, w, name, args);
        BlocksMade(host, start, blocks[1..], Invoke(host, w, name, args).0);
      } else {
        BlocksMade(host, start, blocks[1..], w);
      }
    }
  }

  lemma {:induction false} RoundMade(conn: Connection, host: Host, start: nat, messages: seq<Json>, w: World)
    requires CallsMade(host, w.calls, start)
    ensures var w1 := RunRound(conn, host, messages, w).world;
      w.calls <= w1.calls && CallsMade(host, w1.calls, start)
  {
    var w1 := Ask(w, messages);
    match conn
    case OpenAi(create) =>
      var answer := create(w1.asked, w1.calls);
      if answer.Ok? && FirstCall(answer.value.output).Some? {
        var item := FirstCall(answer.value.output).value;
        InvokeMade(host, start, w1, GetOrNull(item, "name"), ParseArguments(GetOrNull(item, "arguments")));
      }
    case Bedrock(converse) =>
      var answer := converse(w1.asked, w1.calls);
      if answer.Ok? {
        BlocksMade(host, start, Blocks(answer.value.message), w1);
      }
  }

  // ---- the outputs of a message ----------------------------------------------

  /** `part` is a tool output the message carries, in either wire format. */
  ghost predicate IsOutput(kind: Kind, m: Json, part: Json) {
    match kind
    case OpenAiKind => HasType(m, "function_call_output") && part == GetOrNull(m, "output")
    case BedrockKind => exists i :: 0 <= i < |Blocks(m)| && Get(Blocks(m)[i], "toolResult") == Some(part)
  }

  /** The output shows exactly the frame around `payload`. */
  predicate Frames(kind: Kind, part: Json, payload: Json) {
    match kind
    case OpenAiKind => part == Str(FormatToolResult(payload))
    case BedrockKind => Get(part, "content") == Some(Arr([TextBlock(FormatToolResult(payload))]))
  }

  ghost predicate FramesACall(kind: Kind, part: Json, calls: seq<Call>, start: nat) {
    exists k :: start <= k < |calls| && calls[k].result.Ok? && Frames(kind, part, calls[k].result.value)
  }

  /** Every tool output of the message frames the result of a call made from `start` on. */
  ghost predicate FromCalls(kind: Kind, calls: seq<Call>, start: nat, m: Json) {
    forall part :: IsOutput(kind, m, part) ==> FramesACall(kind, part, calls, start)
  }

  lemma {:induction false} FromMoreCalls(kind: Kind, calls: seq<Call>, more: seq<Call>, start: nat, later: nat, m: Json)
    requires FromCalls(kind, calls, later, m) && calls <= more && start <= later
    ensures FromCalls(kind, more, start, m)
  {
    forall part | IsOutput(kind, m, part) ensures FramesACall(kind, part, more, start) {
      var k :| later <= k < |calls| && calls[k].result.Ok? && Frames(kind, part, calls[k].result.value);
      assert more[k] == calls[k];
    }
  }

  /** A Bedrock assistant message carries no tool results of its own. */
  ghost predicate NoProviderResults(conn: Connection) {
    conn.Bedrock? ==> forall asked, calls :: conn.converse(asked, calls).Ok? ==>
      var m := conn.converse(asked, calls).value.message;
      forall i :: 0 <= i < |Blocks(m)| ==> Get(Blocks(m)[i], "toolResult").None?
  }

  /** The text a tool result is shown as. */
  function FramedText(result: Json): Json {
    Str("<TOOL_DATA>\n" + Dumps(result, true) + "\n</TOOL_DATA>")
  }

  /** The output item of an OpenAI call: three keys, the id of the call, the framed result. */
  lemma {:induction false} CallOutputReads(item: Json, result: Json)
    ensures var m := CallOutput(item, result);
      && KeysOf(m.fields) == {"type", "call_id", "output"}
      && Get(m, "type") == Some(Str("function_call_output"))
      && Get(m, "call_id") == Some(GetOrNull(item, "call_id"))
      && Get(m, "output") == Some(FramedText(result))
  {
    var fields := CallOutput(item, result).fields;
    assert fields == [fields[0]] + [fields[1], fields[2]] && fields[1..] == [fields[1], fields[2]];
    assert |"type"| != |"output"| && |"call_id"| != |"output"| && |"type"| != |"call_id"|;
    LookupPair(fields[1], fields[2], "output");
    LookupPair(fields[1], fields[2], "call_id");
    FramedIsFormatted(result);
  }

  lemma {:induction false} FramedIsFormatted(result: Json)
    ensures FramedText(result) == Str(FormatToolResult(result))
  {
    var text := Dumps(result, true);
    assert "<TOOL_DATA>\n" == "<TOOL_DATA>" + "\n" && "\n</TOOL_DATA>" == "\n" + "</TOOL_DATA>";
  }

  /** The result block of a Bedrock use: the id of the use, one text block with the framed result. */
  lemma {:induction false} ResultBlockReads(use: Json, result: Json)
    ensures var block := ToolResultBlock(use, result);
      && KeysOf(block.fields) == {"toolResult"} && Get(block, "toolResult").Some?
      && var record := Get(block, "toolResult").value;
         && record.Obj? && KeysOf(record.fields) == {"toolUseId", "content"}
         && Get(record, "toolUseId") == Some(GetOrNull(use, "toolUseId"))
         && Get(record, "content") == Some(Arr([Obj([Field("text", FramedText(result))])]))
  {
    var block := ToolResultBlock(use, result).fields[0];
    LookupSingle(block.key, block.value, "toolResult");
    var fields := block.value.fields;
    assert |"toolUseId"| != |"content"|;
    LookupPair(fields[0], fields[1], "toolUseId");
    LookupPair(fields[0], fields[1], "content");
    FramedIsFormatted(result);
  }

  /** The message that carries them goes to the model as the user's. */
  lemma {:induction false} FollowUpReads(results: seq<Json>)
    ensures var m := FollowUp(results);
      && KeysOf(m.fields) == {"role", "content"}
      && Get(m, "role") == Some(Str("user")) && Get(m, "content") == Some(Arr(results))
  {
    var fields := FollowUp(results).fields;
    assert |"role"| != |"content"|;
    LookupPair(fields[0], fields[1], "role");
    LookupPair(fields[0], fields[1], "content");
  }

  lemma {:induction false} MessagesAreNotOutputs(output: seq<Json>)
    ensures forall i :: 0 <= i < |MessageItems(output)| ==> !HasType(MessageItems(output)[i], "function_call_output")
  {
    if output != [] {
      assert |"message"| != |"function_call_output"|;
      MessagesAreNotOutputs(output[1..]);
    }
  }

  lemma {:induction false} FollowUpFromCalls(
    uses: seq<Json>, done: seq<Call>, results: seq<Json>, calls: seq<Call>, start: nat)
    requires RunsUses(uses, done, results) && start <= |calls| - |done| && calls[|calls| - |done|..] == done
    ensures FromCalls(BedrockKind, calls, start, FollowUp(results))
  {
    FollowUpHasBlocks(results);
    forall part | IsOutput(BedrockKind, FollowUp(results), part) ensures FramesACall(BedrockKind, part, calls, start) {
      var i :| 0 <= i < |results| && Get(results[i], "toolResult") == Some(part);
      ResultBlockReads(uses[i], done[i].result.value);
      FramedIsFormatted(done[i].result.value);
      var k := |calls| - |done| + i;
      assert calls[k] == done[i] && Frames(BedrockKind, part, calls[k].result.value);
    }
  }

  lemma {:induction false} OpenAiOutputs(create: OpenAiClient, host: Host, messages: seq<Json>, w: World)
    ensures var round := OpenAiRound(create, host, messages, w);
      forall i :: 0 <= i < |round.added| ==> FromCalls(OpenAiKind, round.world.calls, |w.calls|, round.added[i])
  {
    var round := OpenAiRound(create, host, messages, w);
    if round.More? {
      var call := MoreRunsOneCall(create, host, messages, w);
      assert |"function_call"| != |"function_call_output"|;
      CallOutputReads(round.added[2 * 0], call.result.value);
      FramedIsFormatted(call.result.value);
      var (calls, k) := (round.world.calls, |w.calls|);
      assert calls[k] == call && Frames(OpenAiKind, GetOrNull(round.added[1], "output"), calls[k].result.value);
    } else if round.Stop? {
      MessagesAreNotOutputs(round.reply.openai.output);
    }
  }

  lemma {:induction false} BedrockOutputs(converse: BedrockClient, host: Host, messages: seq<Json>, w: World)
    requires NoProviderResults(Bedrock(converse))
    ensures var round := BedrockRound(converse, host, messages, w);
      forall i :: 0 <= i < |round.added| ==> FromCalls(BedrockKind, round.world.calls, |w.calls|, round.added[i])
  {
    var w1 := Ask(w, messages);
    var answer := converse(w1.asked, w1.calls);
    if answer.Ok? {
      var blocks := Blocks(answer.value.message);
      var (w2, results) := RunBlocks(host, blocks, w1);
      BlocksConservation(host, blocks, w1);
      assert FromCalls(BedrockKind, w2.calls, |w.calls|, answer.value.message);
      assert FromCalls(BedrockKind, w1.calls, |w.calls|, answer.value.message);
      if results.Ok? {
        var done := w2.calls[|w1.calls|..];
        assert |w2.calls| - |done| == |w1.calls|;
        FollowUpFromCalls(Uses(blocks), done, results.value, w2.calls, |w.calls|);
      }
    }
  }

  lemma {:induction false} RoundOutputs(conn: Connection, host: Host, messages: seq<Json>, w: World)
    requires NoProviderResults(conn)
    ensures var round := RunRound(conn, host, messages, w);
      forall i :: 0 <= i < |round.added| ==> FromCalls(KindOf(conn), round.world.calls, |w.calls|, round.added[i])
  {
    match conn
    case OpenAi(create) => OpenAiOutputs(create, host, messages, w);
    case Bedrock(converse) => BedrockOutputs(converse, host, messages, w);
  }

  /**
   For any host and any provider, the calls a loop records hold what the host's tool gave, and
   every tool output it appends frames the result of one of those calls.
   */
  lemma {:induction false} LoopOutputs(
    conn: Connection, host: Host, messages: seq<Json>, rounds: nat, last: Option<Response>, w: World, start: nat)
    requires NoProviderResults(conn) && start <= |w.calls| && CallsMade(host, w.calls, start)
    ensures var r := Loop(conn, host, messages, rounds, last, w);
      && w.calls <= r.world.calls && CallsMade(host, r.world.calls, start)
      && messages <= r.messages
      && forall i :: |messages| <= i < |r.messages| ==> FromCalls(KindOf(conn), r.world.calls, start, r.messages[i])
    decreases rounds
  {
    if rounds > 0 {
      RoundMade(conn, host, start, messages, w);
      RoundOutputs(conn, host, messages, w);
      var round := RunRound(conn, host, messages, w);
      var r := Loop(conn, host, messages, rounds, last, w);
      if round.More? {
        LoopOutputs(conn, host, messages + round.added, rounds - 1, Some(round.reply), round.world, start);
      }
      forall i | |messages| <= i < |r.messages| ensures FromCalls(KindOf(conn), r.world.calls, start, r.messages[i]) {
        if i < |messages| + |round.added| {
          assert r.messages[i] == round.added[i - |messages|];
          FromMoreCalls(KindOf(conn), round.world.calls, r.world.calls, start, |w.calls|, r.messages[i]);
        }
      }
    }
  }
}
