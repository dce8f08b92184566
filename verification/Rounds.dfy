/** The tool-call loop, one round at a time, as a function of what the round sees. */
module Rounds {
  import opened Results
  import opened JsonValues
  import opened JsonText
  import opened ToolData
  import opened World

  datatype OpenAiReply = OpenAiReply(error: bool, output: seq<Json>)

  datatype BedrockReply = BedrockReply(message: Json, stopReason: string)

  datatype Response = FromOpenAi(openai: OpenAiReply) | FromBedrock(bedrock: BedrockReply)

  const DEFAULT_MAX_TOOL_CALL_ROUNDS := 100

  type OpenAiClient = (seq<seq<Json>>, seq<Call>) -> Outcome<OpenAiReply>

  type BedrockClient = (seq<seq<Json>>, seq<Call>) -> Outcome<BedrockReply>

  datatype Connection = OpenAi(create: OpenAiClient) | Bedrock(converse: BedrockClient)

  /** The wire format of a connection, which is also the kind a conversation is stored under. */
  datatype Kind = OpenAiKind | BedrockKind

  function KindOf(conn: Connection): Kind {
    if conn.OpenAi? then OpenAiKind else BedrockKind
  }

  /** How a round ends: the exception leaves, the reply is final, or another round follows. */
  datatype Round =
    | Crash(added: seq<Json>, world: World)
    | Stop(reply: Response, added: seq<Json>, world: World)
    | More(reply: Response, added: seq<Json>, world: World)

  datatype LoopResult = LoopResult(response: Outcome<Option<Response>>, messages: seq<Json>, world: World)

  // ---- OpenAI -------------------------------------------------------

  predicate HasType(item: Json, kind: string) {
    Get(item, "type") == Some(Str(kind))
  }

  /** The one call a round runs: the first `function_call` of the output. */
  function FirstCall(output: seq<Json>): Option<Json> {
    if output == [] then None
    else if HasType(output[0], "function_call") then Some(output[0])
    else FirstCall(output[1..])
  }

  function MessageItems(output: seq<Json>): seq<Json> {
    if output == [] then []
    else if HasType(output[0], "message") then [output[0]] + MessageItems(output[1..])
    else MessageItems(output[1..])
  }

  /** The model's arguments: a JSON string, a dict, or nothing usable. */
  function ParseArguments(raw: Json): Json {
    match raw
    case Str(s) =>
      if s == "" then Obj([]) else if Loads(s).Some? then Loads(s).value else Obj([])
    case Obj(_) => raw
    case _ => Obj([])
  }

  function CallOutput(item: Json, result: Json): Json {
    Obj([
      Field("type", Str("function_call_output")),
      Field("call_id", GetOrNull(item, "call_id")),
      Field("output", Str(FormatToolResult(result)))])
  }

  /** What a reply without an error leads to. */
  function OpenAiAnswer(host: Host, reply: OpenAiReply, w: World): Round {
    var call := FirstCall(reply.output);
    if call.None? then Stop(FromOpenAi(reply), MessageItems(reply.output), w) else
    var item := call.value;
    var (w1, result) := InvokeItem(host, item, w);
    if result.Raised? then Crash([], w1)
    else More(FromOpenAi(reply), [item, CallOutput(item, result.value)], w1)
  }

  function InvokeItem(host: Host, item: Json, w: World): (World, Outcome<Json>) {
    Invoke(host, w, GetOrNull(item, "name"), ParseArguments(GetOrNull(item, "arguments")))
  }

  function OpenAiRound(create: OpenAiClient, host: Host, messages: seq<Json>, w: World): Round {
    var w1 := Ask(w, messages);
    var answer := create(w1.asked, w1.calls);
    if answer.Raised? then Crash([], w1) else
    var reply := answer.value;
    if reply.error then Stop(FromOpenAi(reply), [], w1) else OpenAiAnswer(host, reply, w1)
  }

  // ---- Bedrock --------------------------------------------------------

  function TextBlock(text: string): Json {
    Obj([Field("text", Str(text))])
  }

  /** `_ensure_bedrock_content_blocks`. */
  function EnsureContentBlocks(message: Json): Json {
    var content := GetOrNull(message, "content");
    if content.Str? then Obj(SetKey(message.fields, "content", Arr([TextBlock(content.s)]))) else message
  }

  function EnsureAll(messages: seq<Json>): (r: seq<Json>)
    ensures |r| == |messages|
    ensures forall i :: 0 <= i < |r| ==> r[i] == EnsureContentBlocks(messages[i])
  {
    if messages == [] then [] else [EnsureContentBlocks(messages[0])] + EnsureAll(messages[1..])
  }

  /** The blocks of a message; other content has none. */
  function Blocks(message: Json): seq<Json> {
    var content := GetOrNull(message, "content");
    if content.Arr? then content.items else []
  }

  function ToolUse(block: Json): Json {
    GetOrNull(block, "toolUse")
  }

  function OrEmptyDict(j: Json): Json {
    if Truthy(j) then j else Obj([])
  }

  function ToolResultBlock(use: Json, result: Json): Json {
    Obj([Field("toolResult", Obj([
      Field("toolUseId", GetOrNull(use, "toolUseId")),
      Field("content", Arr([TextBlock(FormatToolResult(result))]))]))])
  }

  function FollowUp(results: seq<Json>): Json {
    Obj([Field("role", Str("user")), Field("content", Arr(results))])
  }

  /** Every `toolUse` block in order; the first exception ends the run. */
  function RunBlocks(host: Host, blocks: seq<Json>, w: World): (World, Outcome<seq<Json>>) {
    if blocks == [] then (w, Ok([])) else
    var use := ToolUse(blocks[0]);
    if !Truthy(use) then RunBlocks(host, blocks[1..], w) else
    var (w1, result) := Invoke(host, w, GetOrNull(use, "name"), OrEmptyDict(GetOrNull(use, "input")));
    if result.Raised? then (w1, Raised) else
    var (w2, rest) := RunBlocks(host, blocks[1..], w1);
    if rest.Raised? then (w2, Raised) else (w2, Ok([ToolResultBlock(use, result.value)] + rest.value))
  }

  function BedrockRound(converse: BedrockClient, host: Host, messages: seq<Json>, w: World): Round {
    var w1 := Ask(w, messages);
    var answer := converse(w1.asked, w1.calls);
    if answer.Raised? then Crash([], w1) else
    var reply := answer.value;
    if reply.stopReason != "tool_use" then Stop(FromBedrock(reply), [reply.message], w1) else
    var (w2, results) := RunBlocks(host, Blocks(reply.message), w1);
    if results.Raised? then Crash([reply.message], w2)
    else More(FromBedrock(reply), [reply.message, FollowUp(results.value)], w2)
  }

  // ---- the loop ---------------------------------------------------------

  function RunRound(conn: Connection, host: Host, messages: seq<Json>, w: World): Round {
    match conn
    case OpenAi(create) => OpenAiRound(create, host, messages, w)
    case Bedrock(converse) => BedrockRound(converse, host, messages, w)
  }

  /** At most `rounds` rounds; `last` is the response so far, `None` before the first. */
  function Loop(
    conn: Connection, host: Host, messages: seq<Json>, rounds: nat, last: Option<Response>, w: World): LoopResult
    decreases rounds
  {
    if rounds == 0 then LoopResult(Ok(last), messages, w) else
    match RunRound(conn, host, messages, w)
    case Crash(added, w1) => LoopResult(Raised, messages + added, w1)
    case Stop(reply, added, w1) => LoopResult(Ok(Some(reply)), messages + added, w1)
    case More(reply, added, w1) => Loop(conn, host, messages + added, rounds - 1, Some(reply), w1)
  }

  /** The list the loop starts from: Bedrock normalises a copy, OpenAI keeps the caller's. */
  function Entered(conn: Connection, messages: seq<Json>): (r: seq<Json>)
    ensures |r| == |messages|
  {
    if conn.Bedrock? then EnsureAll(messages) else messages
  }

  /** `chat_with_tools` of either connection. */
  function ChatWithTools(conn: Connection, host: Host, messages: seq<Json>, rounds: nat, w: World): LoopResult {
    Loop(conn, host, Entered(conn, messages), rounds, None, w)
  }

  /** What slicing a list at a position gives in Python: past the end, nothing. */
  function From(s: seq<Json>, n: nat): seq<Json> {
    if n <= |s| then s[n..] else []
  }

  /** `diff_new_messages` of both handlers. */
  function NewMessages(sent: seq<Json>, final: seq<Json>): seq<Json> {
    From(final, |sent|)
  }

  /** The loop only ever appends. */
  lemma {:induction false} LoopAppends(
    conn: Connection, host: Host, messages: seq<Json>, rounds: nat, last: Option<Response>, w: World)
    ensures messages <= Loop(conn, host, messages, rounds, last, w).messages
    decreases rounds
  {
    if rounds > 0 {
      var round := RunRound(conn, host, messages, w);
      if round.More? {
        LoopAppends(conn, host, messages + round.added, rounds - 1, Some(round.reply), round.world);
      }
    }
  }

  /**
   The positional diff is exact for both connections: the final list is the entered list
   followed by precisely what slicing at the length of the sent list returns.
   */
  lemma DiffIsExact(conn: Connection, host: Host, sent: seq<Json>, rounds: nat, w: World)
    ensures var r := ChatWithTools(conn, host, sent, rounds, w);
      r.messages == Entered(conn, sent) + NewMessages(sent, r.messages)
  {
    LoopAppends(conn, host, Entered(conn, sent), rounds, None, w);
  }
}
