/** Tool calls and their results stay next to each other in every list sent to the model. */
module Pairing {
  import opened Results
  import opened JsonValues
  import opened World
  import opened Rounds
  import opened Conservation

  function UseIds(uses: seq<Json>): seq<Json> {
    if uses == [] then [] else [GetOrNull(uses[0], "toolUseId")] + UseIds(uses[1..])
  }

  function ResultIds(blocks: seq<Json>): seq<Json> {
    if blocks == [] then []
    else
      var result := Get(blocks[0], "toolResult");
      (if result.Some? then [GetOrNull(result.value, "toolUseId")] else []) + ResultIds(blocks[1..])
  }

  /** The correlation ids of the calls a message makes. */
  function CallIds(kind: Kind, m: Json): seq<Json> {
    match kind
    case OpenAiKind => if HasType(m, "function_call") then [GetOrNull(m, "call_id")] else []
    case BedrockKind => UseIds(Uses(Blocks(m)))
  }

  /** The correlation ids of the results a message carries. */
  function AnswerIds(kind: Kind, m: Json): seq<Json> {
    match kind
    case OpenAiKind => if HasType(m, "function_call_output") then [GetOrNull(m, "call_id")] else []
    case BedrockKind => ResultIds(Blocks(m))
  }

  /**
   Every message with calls is followed at once by the message answering exactly those
   calls, in order; a message with results answers the one before it, unless it is first.
   */
  ghost predicate Paired(kind: Kind, messages: seq<Json>) {
    && (forall i :: 0 <= i < |messages| && CallIds(kind, messages[i]) != [] ==>
         i + 1 < |messages| && AnswerIds(kind, messages[i + 1]) == CallIds(kind, messages[i]))
    && (forall i :: 0 < i < |messages| && AnswerIds(kind, messages[i]) != [] ==>
         CallIds(kind, messages[i - 1]) == AnswerIds(kind, messages[i]))
  }

  /** Paired, and not starting with an orphaned result. */
  ghost predicate Whole(kind: Kind, messages: seq<Json>) {
    Paired(kind, messages) && (messages != [] ==> AnswerIds(kind, messages[0]) == [])
  }

  predicate Plumbing(kind: Kind, m: Json) {
    CallIds(kind, m) != [] || AnswerIds(kind, m) != []
  }

  /** Cutting at any point keeps every pair but the one cut through: its result is left first. */
  lemma {:induction false} SuffixPaired(kind: Kind, messages: seq<Json>, n: nat)
    requires Paired(kind, messages) && n <= |messages|
    ensures Paired(kind, messages[n..])
  {
    var s := messages[n..];
    assert forall i :: 0 <= i < |s| ==> s[i] == messages[n + i];
    forall i | 0 <= i < |s| && CallIds(kind, s[i]) != []
      ensures i + 1 < |s| && AnswerIds(kind, s[i + 1]) == CallIds(kind, s[i])
    {
      assert AnswerIds(kind, messages[n + i + 1]) == CallIds(kind, messages[n + i]);
    }
    forall i | 0 < i < |s| && AnswerIds(kind, s[i]) != []
      ensures CallIds(kind, s[i - 1]) == AnswerIds(kind, s[i])
    {
      assert CallIds(kind, messages[n + i - 1]) == AnswerIds(kind, messages[n + i]);
    }
  }

  lemma {:induction false} AppendPaired(kind: Kind, messages: seq<Json>, added: seq<Json>)
    requires Paired(kind, messages) && Whole(kind, added)
    ensures Paired(kind, messages + added)
    ensures Whole(kind, messages) ==> Whole(kind, messages + added)
  {
    var s := messages + added;
    var n := |messages|;
    forall i | 0 <= i < |s| && CallIds(kind, s[i]) != []
      ensures i + 1 < |s| && AnswerIds(kind, s[i + 1]) == CallIds(kind, s[i])
    {
      if i < n { assert CallIds(kind, messages[i]) != []; } else { assert CallIds(kind, added[i - n]) != []; }
    }
    forall i | 0 < i < |s| && AnswerIds(kind, s[i]) != []
      ensures CallIds(kind, s[i - 1]) == AnswerIds(kind, s[i])
    {
      if i < n { assert AnswerIds(kind, messages[i]) != []; } else { assert AnswerIds(kind, added[i - n]) != []; }
    }
  }

  lemma {:induction false} PlainWhole(kind: Kind, messages: seq<Json>)
    requires forall i :: 0 <= i < |messages| ==> !Plumbing(kind, messages[i])
    ensures Whole(kind, messages)
  {
  }

  /** A pointwise image that keeps the ids keeps the pairing. */
  lemma {:induction false} PairedIsAboutIds(kind: Kind, a: seq<Json>, b: seq<Json>)
    requires |a| == |b|
    requires forall i :: 0 <= i < |a| ==>
      CallIds(kind, a[i]) == CallIds(kind, b[i]) && AnswerIds(kind, a[i]) == AnswerIds(kind, b[i])
    requires Paired(kind, a)
    ensures Paired(kind, b)
    ensures Whole(kind, a) ==> Whole(kind, b)
  {
    forall i | 0 <= i < |b| && CallIds(kind, b[i]) != []
      ensures i + 1 < |b| && AnswerIds(kind, b[i + 1]) == CallIds(kind, b[i])
    {
      assert CallIds(kind, a[i]) != [];
    }
    forall i | 0 < i < |b| && AnswerIds(kind, b[i]) != []
      ensures CallIds(kind, b[i - 1]) == AnswerIds(kind, b[i])
    {
      assert AnswerIds(kind, a[i]) != [];
    }
  }

  // ---- one round ---------------------------------------------------------------

  /**
   What is asked of the provider. OpenAI: nothing. Bedrock: an assistant message carries no
   results, and no calls unless it stops for tool use.
   */
  ghost predicate PairableReplies(conn: Connection) {
    conn.Bedrock? ==> forall asked, calls :: conn.converse(asked, calls).Ok? ==>
      var reply := conn.converse(asked, calls).value;
      && AnswerIds(BedrockKind, reply.message) == []
      && (reply.stopReason != "tool_use" ==> CallIds(BedrockKind, reply.message) == [])
  }

  lemma {:induction false} TypesDiffer()
    ensures "function_call" != "function_call_output"
    ensures "message" != "function_call" && "message" != "function_call_output"
  {
    assert |"function_call"| != |"function_call_output"| && |"message"| != |"function_call"|;
  }

  lemma {:induction false} MessageItemsPlain(output: seq<Json>)
    ensures forall i :: 0 <= i < |MessageItems(output)| ==> HasType(MessageItems(output)[i], "message")
  {
    if output != [] {
      MessageItemsPlain(output[1..]);
    }
  }

  lemma {:induction false} CallOutputAnswers(item: Json, result: Json)
    ensures HasType(CallOutput(item, result), "function_call_output")
    ensures GetOrNull(CallOutput(item, result), "call_id") == GetOrNull(item, "call_id")
  {
    var fields := CallOutput(item, result).fields;
    assert fields[1..][0] == Field("call_id", GetOrNull(item, "call_id"));
    assert fields[0].key != "call_id" by { assert |"type"| != |"call_id"|; }
    assert Lookup(fields[1..], "call_id") == Some(GetOrNull(item, "call_id"));
    assert Lookup(fields, "call_id") == Lookup(fields[1..], "call_id");
  }

  lemma {:induction false} ResultBlockId(use: Json, result: Json)
    ensures Get(ToolResultBlock(use, result), "toolResult").Some?
    ensures GetOrNull(GetOrNull(ToolResultBlock(use, result), "toolResult"), "toolUseId") == GetOrNull(use, "toolUseId")
    ensures !Truthy(ToolUse(ToolResultBlock(use, result)))
  {
    var f := ToolResultBlock(use, result).fields[0];
    assert |"toolResult"| != |"toolUse"|;
    LookupSingle(f.key, f.value, "toolUse");
  }

  /** The follow-up of a round answers its uses one for one, and calls nothing itself. */
  lemma {:induction false} ResultsAnswerUses(uses: seq<Json>, calls: seq<Call>, results: seq<Json>)
    requires RunsUses(uses, calls, results)
    ensures ResultIds(results) == UseIds(uses) && Uses(results) == []
  {
    if uses != [] {
      assert results[0] == ToolResultBlock(uses[0], calls[0].result.value);
      ResultBlockId(uses[0], calls[0].result.value);
      assert RunsUses(uses[1..], calls[1..], results[1..]);
      ResultsAnswerUses(uses[1..], calls[1..], results[1..]);
    }
  }

  lemma {:induction false} RoundWhole(conn: Connection, host: Host, messages: seq<Json>, w: World)
    requires PairableReplies(conn)
    ensures var round := RunRound(conn, host, messages, w);
      && round.world.asked == w.asked + [messages]
      && (!round.Crash? ==> Whole(KindOf(conn), round.added))
  {
    var round := RunRound(conn, host, messages, w);
    var w1 := Ask(w, messages);
    TypesDiffer();
    match conn
    case OpenAi(create) =>
      var answer := create(w1.asked, w1.calls);
      if answer.Ok? && !answer.value.error {
        FirstCallIsACall(answer.value.output);
        if round.Stop? {
          MessageItemsPlain(answer.value.output);
          PlainWhole(OpenAiKind, round.added);
        }
        if round.More? {
          var item := FirstCall(answer.value.output).value;
          CallOutputAnswers(item, InvokeItem(host, item, w1).1.value);
        }
      }
    case Bedrock(converse) =>
      var answer := converse(w1.asked, w1.calls);
      if answer.Ok? {
        var blocks := Blocks(answer.value.message);
        BlocksConservation(host, blocks, w1);
        var (w2, results) := RunBlocks(host, blocks, w1);
        if round.More? {
          FollowUpHasBlocks(results.value);
          ResultsAnswerUses(Uses(blocks), w2.calls[|w1.calls|..], results.value);
        }
      }
  }

  /** Every request of a loop, and the list it returns, keeps calls and results together. */
  lemma {:induction false} LoopPaired(
    conn: Connection, host: Host, messages: seq<Json>, rounds: nat, last: Option<Response>, w: World)
    requires PairableReplies(conn) && Paired(KindOf(conn), messages)
    ensures var r := Loop(conn, host, messages, rounds, last, w);
      && w.asked <= r.world.asked
      && (forall k :: |w.asked| <= k < |r.world.asked| ==> Paired(KindOf(conn), r.world.asked[k]))
      && (r.response.Ok? ==> Paired(KindOf(conn), r.messages))
    decreases rounds
  {
    if rounds > 0 {
      RoundWhole(conn, host, messages, w);
      var round := RunRound(conn, host, messages, w);
      if !round.Crash? {
        AppendPaired(KindOf(conn), messages, round.added);
      }
      if round.More? {
        LoopPaired(conn, host, messages + round.added, rounds - 1, Some(round.reply), round.world);
      }
    }
  }

  /**
   The assumption on Bedrock is exact: a final reply without results leaves the list paired
   if and only if it makes no calls. Calls of a reply that does not stop for tool use are
   never answered.
   */
  lemma {:induction false} FinalCallsAreOrphaned(converse: BedrockClient, host: Host, messages: seq<Json>, w: World)
    requires Paired(BedrockKind, messages) && BedrockRound(converse, host, messages, w).Stop?
    requires AnswerIds(BedrockKind, BedrockRound(converse, host, messages, w).reply.bedrock.message) == []
    ensures var round := BedrockRound(converse, host, messages, w);
      Paired(BedrockKind, messages + round.added) <==> CallIds(BedrockKind, round.reply.bedrock.message) == []
  {
    var round := BedrockRound(converse, host, messages, w);
    var all := messages + round.added;
    assert all[|all| - 1] == round.reply.bedrock.message;
    if CallIds(BedrockKind, round.reply.bedrock.message) == [] {
      AppendPaired(BedrockKind, messages, round.added);
    }
  }

  // ---- entering the loop ---------------------------------------------------------

  lemma {:induction false} TextBlockIsPlain(text: string)
    ensures Uses([TextBlock(text)]) == [] && ResultIds([TextBlock(text)]) == []
  {
    assert [TextBlock(text)][1..] == [];
    assert |"text"| != |"toolUse"| && |"text"| != |"toolResult"|;
    LookupSingle("text", Str(text), "toolUse");
    LookupSingle("text", Str(text), "toolResult");
  }

  lemma {:induction false} EnteredKeepsIds(conn: Connection, messages: seq<Json>, i: nat)
    requires i < |messages|
    ensures CallIds(KindOf(conn), Entered(conn, messages)[i]) == CallIds(KindOf(conn), messages[i])
    ensures AnswerIds(KindOf(conn), Entered(conn, messages)[i]) == AnswerIds(KindOf(conn), messages[i])
  {
    var content := GetOrNull(messages[i], "content");
    if conn.Bedrock? && content.Str? {
      LookupSet(messages[i].fields, "content", Arr([TextBlock(content.s)]), "content");
      TextBlockIsPlain(content.s);
    }
  }

  lemma {:induction false} ChatPaired(conn: Connection, host: Host, messages: seq<Json>, rounds: nat, w: World)
    requires PairableReplies(conn) && Paired(KindOf(conn), messages)
    ensures var r := ChatWithTools(conn, host, messages, rounds, w);
      && w.asked <= r.world.asked
      && (forall k :: |w.asked| <= k < |r.world.asked| ==> Paired(KindOf(conn), r.world.asked[k]))
      && ((r.response.Ok? && messages != [] && !Plumbing(KindOf(conn), messages[|messages| - 1]))
         ==> Whole(KindOf(conn), NewMessages(messages, r.messages)))
  {
    var kind := KindOf(conn);
    var entered := Entered(conn, messages);
    forall i | 0 <= i < |messages|
      ensures CallIds(kind, entered[i]) == CallIds(kind, messages[i])
      ensures AnswerIds(kind, entered[i]) == AnswerIds(kind, messages[i])
    {
      EnteredKeepsIds(conn, messages, i);
    }
    PairedIsAboutIds(kind, messages, entered);
    LoopPaired(conn, host, entered, rounds, None, w);
    LoopAppends(conn, host, entered, rounds, None, w);
    var r := ChatWithTools(conn, host, messages, rounds, w);
    if r.response.Ok? && messages != [] && !Plumbing(kind, messages[|messages| - 1]) {
      SuffixPaired(kind, r.messages, |messages|);
      var turn := NewMessages(messages, r.messages);
      assert turn == r.messages[|messages|..];
      if turn != [] {
        assert turn[0] == r.messages[|messages|] && r.messages[|messages| - 1] == entered[|messages| - 1];
      }
    }
  }
}
