/** The two loops run the same conversation: one policy, encoded for either provider. */
module Simulation {
  import opened Results
  import opened JsonValues
  import opened JsonText
  import opened ToolData
  import opened World
  import opened Rounds
  import opened Handlers
  import JsonSpacing

  /** A provider's move, free of any wire format: at most one call per round. */
  datatype Move =
    | Request(preamble: Option<string>, name: string, args: Dict, id: string)
    | Say(text: string)
    | Fail

  /** One entry of a conversation, free of any wire format. */
  datatype Entry =
    | Prompted(text: string)
    | Called(preamble: Option<string>, name: string, args: Dict, id: string)
    | Answered(id: string, text: string)
    | Said(text: string)

  /**
   A provider that decides on all it can see: every conversation it was sent so far, the current
   one last, and the tool calls made. So a script, or a model that reads prompts, is an instance.
   */
  type Policy = (seq<seq<Entry>>, seq<Call>) -> Move

  // ---- OpenAI encoding ---------------------------------------------------

  function OpenAiMessage(text: string): Json {
    Obj([
      Field("type", Str("message")),
      Field("role", Str("assistant")),
      Field("content", Arr([Obj([Field("type", Str("output_text")), Field("text", Str(text))])]))])
  }

  function FunctionCall(name: string, args: Dict, id: string): Json {
    Obj([
      Field("type", Str("function_call")),
      Field("name", Str(name)),
      Field("call_id", Str(id)),
      Field("arguments", Str(Dumps(Obj(args), true)))])
  }

  function OpenAiMove(m: Move): Outcome<OpenAiReply> {
    match m
    case Fail => Raised
    case Say(text) => Ok(OpenAiReply(false, [OpenAiMessage(text)]))
    case Request(preamble, name, args, id) =>
      Ok(OpenAiReply(false,
        (if preamble.Some? then [OpenAiMessage(preamble.value)] else []) + [FunctionCall(name, args, id)]))
  }

  function OutputItem(id: string, text: string): Json {
    Obj([Field("type", Str("function_call_output")), Field("call_id", Str(id)), Field("output", Str(text))])
  }

  function OpenAiEntry(e: Entry): Json {
    match e
    case Prompted(text) => BuildUserPrompt(OpenAiKind, text)
    case Called(_, name, args, id) => FunctionCall(name, args, id)
    case Answered(id, text) => OutputItem(id, text)
    case Said(text) => OpenAiMessage(text)
  }

  // ---- Bedrock encoding -----------------------------------------------------

  function AssistantBlocks(blocks: seq<Json>): Json {
    Obj([Field("role", Str("assistant")), Field("content", Arr(blocks))])
  }

  function UseRecord(name: string, args: Dict, id: string): Json {
    Obj([Field("toolUseId", Str(id)), Field("name", Str(name)), Field("input", Obj(args))])
  }

  function CallBlocks(preamble: Option<string>, name: string, args: Dict, id: string): seq<Json> {
    (if preamble.Some? then [TextBlock(preamble.value)] else [])
    + [Obj([Field("toolUse", UseRecord(name, args, id))])]
  }

  function BedrockMove(m: Move): Outcome<BedrockReply> {
    match m
    case Fail => Raised
    case Say(text) => Ok(BedrockReply(AssistantBlocks([TextBlock(text)]), "end_turn"))
    case Request(preamble, name, args, id) =>
      Ok(BedrockReply(AssistantBlocks(CallBlocks(preamble, name, args, id)), "tool_use"))
  }

  function ResultRecord(id: string, text: string): Json {
    Obj([Field("toolUseId", Str(id)), Field("content", Arr([TextBlock(text)]))])
  }

  function BedrockEntry(e: Entry): Json {
    match e
    case Prompted(text) => BuildUserPrompt(BedrockKind, text)
    case Called(preamble, name, args, id) => AssistantBlocks(CallBlocks(preamble, name, args, id))
    case Answered(id, text) => FollowUp([Obj([Field("toolResult", ResultRecord(id, text))])])
    case Said(text) => AssistantBlocks([TextBlock(text)])
  }

  // ---- transcripts ---------------------------------------------------------------

  function Rendered(kind: Kind, e: Entry): Json {
    if kind.OpenAiKind? then OpenAiEntry(e) else BedrockEntry(e)
  }

  function Render(kind: Kind, entries: seq<Entry>): seq<Json> {
    seq(|entries|, i requires 0 <= i < |entries| => Rendered(kind, entries[i]))
  }

  /** The arguments of a call are a Python dict. */
  ghost predicate WfEntry(e: Entry) {
    e.Called? ==> Wf(Obj(e.args))
  }

  ghost predicate WfAll(entries: seq<Entry>) {
    forall i :: 0 <= i < |entries| ==> WfEntry(entries[i])
  }

  // ---- reading a conversation back ------------------------------------------------------

  function FieldsOf(j: Json): Dict {
    if j.Obj? then j.fields else []
  }

  function ReadOpenAi(m: Json): Option<Entry> {
    if HasType(m, "function_call") then
      Some(Called(None, TextOf(GetOrNull(m, "name")), FieldsOf(ParseArguments(GetOrNull(m, "arguments"))),
        TextOf(GetOrNull(m, "call_id"))))
    else if HasType(m, "function_call_output") then
      Some(Answered(TextOf(GetOrNull(m, "call_id")), TextOf(GetOrNull(m, "output"))))
    else if HasType(m, "message") && Blocks(m) != [] then Some(Said(TextOf(GetOrNull(Blocks(m)[0], "text"))))
    else if HasRole(m, "user") then Some(Prompted(TextOf(GetOrNull(m, "content"))))
    else None
  }

  function ReadBedrock(m: Json): Option<Entry> {
    var blocks := Blocks(m);
    if blocks == [] then None else
    var (first, last) := (blocks[0], blocks[|blocks| - 1]);
    if HasRole(m, "assistant") then
      if Get(last, "toolUse").None? then Some(Said(TextOf(GetOrNull(first, "text"))))
      else
        var use := ToolUse(last);
        Some(Called(None, TextOf(GetOrNull(use, "name")), FieldsOf(GetOrNull(use, "input")),
          TextOf(GetOrNull(use, "toolUseId"))))
    else if Get(first, "toolResult").None? then Some(Prompted(TextOf(GetOrNull(first, "text"))))
    else
      var result := GetOrNull(first, "toolResult");
      if Blocks(result) == [] then None
      else Some(Answered(TextOf(GetOrNull(result, "toolUseId")), TextOf(GetOrNull(Blocks(result)[0], "text"))))
  }

  /** What a message of either wire format says; nothing for one that is not of these shapes. */
  function Read(kind: Kind, m: Json): Option<Entry> {
    if kind.OpenAiKind? then ReadOpenAi(m) else ReadBedrock(m)
  }

  function ReadAll(kind: Kind, messages: seq<Json>): seq<Entry> {
    if messages == [] then []
    else
      var first := Read(kind, messages[0]);
      (if first.Some? then [first.value] else []) + ReadAll(kind, messages[1..])
  }

  /** The conversations a provider was sent. */
  function Views(kind: Kind, asked: seq<seq<Json>>): seq<seq<Entry>> {
    seq(|asked|, k requires 0 <= k < |asked| => ReadAll(kind, asked[k]))
  }

  /** What both formats can hold: OpenAI keeps no text beside a call. */
  function Erased(e: Entry): Entry {
    if e.Called? then e.(preamble := None) else e
  }

  function Erase(entries: seq<Entry>): seq<Entry> {
    if entries == [] then [] else [Erased(entries[0])] + Erase(entries[1..])
  }

  lemma {:induction false} ReadRenderedOpenAi(e: Entry)
    requires WfEntry(e)
    ensures ReadOpenAi(OpenAiEntry(e)) == Some(Erased(e))
  {
    match e
    case Prompted(text) => PromptFields(OpenAiKind, text);
    case Called(_, name, args, id) =>
      FunctionCallFields(name, args, id);
      ArgumentsTravel(args);
    case Answered(id, text) => OutputItemFields(id, text);
    case Said(text) => OpenAiMessageFields(text);
  }

  lemma {:induction false} ReadRenderedBedrock(e: Entry)
    ensures ReadBedrock(BedrockEntry(e)) == Some(Erased(e))
  {
    match e
    case Prompted(text) =>
      PromptFields(BedrockKind, text);
      TextBlockFields(text);
      assert "user"[0] != "assistant"[0];
    case Called(preamble, name, args, id) =>
      AssistantBlocksFields(CallBlocks(preamble, name, args, id));
      ToolUseBlockFields(name, args, id);
      UseRecordFields(name, args, id);
    case Answered(id, text) =>
      ResultFields(id, text);
      TextBlockFields(text);
    case Said(text) =>
      AssistantBlocksFields([TextBlock(text)]);
      TextBlockFields(text);
  }

  /** Reading undoes rendering, in either wire format. */
  lemma {:induction false} ReadAllRendered(kind: Kind, entries: seq<Entry>)
    requires WfAll(entries)
    ensures ReadAll(kind, Render(kind, entries)) == Erase(entries)
  {
    if entries != [] {
      if kind.OpenAiKind? { ReadRenderedOpenAi(entries[0]); } else { ReadRenderedBedrock(entries[0]); }
      assert Render(kind, entries)[1..] == Render(kind, entries[1..]);
      ReadAllRendered(kind, entries[1..]);
    }
  }

  /** Two lists that say the same: one conversation, rendered for either provider. */
  ghost predicate SameRendering(o: seq<Json>, b: seq<Json>) {
    exists entries :: WfAll(entries) && o == Render(OpenAiKind, entries) && b == Render(BedrockKind, entries)
  }

  ghost predicate SameRequests(o: seq<seq<Json>>, b: seq<seq<Json>>) {
    |o| == |b| && forall k :: 0 <= k < |o| ==> SameRendering(o[k], b[k])
  }

  lemma {:induction false} SameRequestsReadAlike(o: seq<seq<Json>>, b: seq<seq<Json>>)
    requires SameRequests(o, b)
    ensures Views(OpenAiKind, o) == Views(BedrockKind, b)
  {
    forall k | 0 <= k < |o| ensures ReadAll(OpenAiKind, o[k]) == ReadAll(BedrockKind, b[k]) {
      var entries :| WfAll(entries) && o[k] == Render(OpenAiKind, entries) && b[k] == Render(BedrockKind, entries);
      ReadAllRendered(OpenAiKind, entries);
      ReadAllRendered(BedrockKind, entries);
    }
  }

  /** The policy behind either provider's client: it reads the requests and its move is encoded. */
  function Encoded(kind: Kind, policy: Policy): Connection {
    if kind.OpenAiKind? then OpenAi((asked, calls) => OpenAiMove(policy(Views(OpenAiKind, asked), calls)))
    else Bedrock((asked, calls) => BedrockMove(policy(Views(BedrockKind, asked), calls)))
  }

  /** The move that answers a list of messages. */
  function Decide(kind: Kind, policy: Policy, messages: seq<Json>, w: World): Move {
    policy(Views(kind, Ask(w, messages).asked), w.calls)
  }

  /** The response of the latest move, as each connection holds it. */
  function LastResponse(kind: Kind, last: Option<Move>): Option<Response> {
    if last.None? then None
    else if kind.OpenAiKind? then
      var reply := OpenAiMove(last.value);
      if reply.Ok? then Some(FromOpenAi(reply.value)) else None
    else
      var reply := BedrockMove(last.value);
      if reply.Ok? then Some(FromBedrock(reply.value)) else None
  }

  // ---- what the loops read in the encodings ------------------------------------------

  lemma {:induction false} FunctionCallFields(name: string, args: Dict, id: string)
    ensures var item := FunctionCall(name, args, id);
      && HasType(item, "function_call") && !HasType(item, "message")
      && GetOrNull(item, "name") == Str(name) && GetOrNull(item, "call_id") == Str(id)
      && GetOrNull(item, "arguments") == Str(Dumps(Obj(args), true))
  {
    var f := FunctionCall(name, args, id).fields;
    assert f[1..] == [f[1], f[2], f[3]] && f[1..][1..] == [f[2], f[3]];
    assert "type"[0] != "name"[0] && |"type"| != |"call_id"| && |"type"| != |"arguments"|;
    assert |"name"| != |"call_id"| && |"name"| != |"arguments"| && |"call_id"| != |"arguments"|;
    assert |"function_call"| != |"message"|;
    LookupPair(f[2], f[3], "call_id");
    LookupPair(f[2], f[3], "arguments");
    assert Lookup(f, "call_id") == Lookup(f[1..], "call_id") == Lookup(f[1..][1..], "call_id");
    assert Lookup(f, "arguments") == Lookup(f[1..], "arguments") == Lookup(f[1..][1..], "arguments");
    assert Lookup(f, "name") == Lookup(f[1..], "name");
  }

  lemma {:induction false} OutputItemFields(id: string, text: string)
    ensures var m := OutputItem(id, text);
      && HasType(m, "function_call_output") && !HasType(m, "function_call")
      && GetOrNull(m, "call_id") == Str(id) && GetOrNull(m, "output") == Str(text)
  {
    var f := OutputItem(id, text).fields;
    assert f[1..] == [f[1], f[2]];
    assert |"type"| != |"call_id"| && |"type"| != |"output"| && |"call_id"| != |"output"|;
    assert |"function_call"| != |"function_call_output"|;
    LookupPair(f[1], f[2], "call_id");
    LookupPair(f[1], f[2], "output");
  }

  lemma {:induction false} ResultFields(id: string, text: string)
    ensures var m := FollowUp([Obj([Field("toolResult", ResultRecord(id, text))])]);
      && Blocks(m) == [Obj([Field("toolResult", ResultRecord(id, text))])] && !HasRole(m, "assistant")
      && Get(Blocks(m)[0], "toolResult") == Some(ResultRecord(id, text))
    ensures GetOrNull(ResultRecord(id, text), "toolUseId") == Str(id)
    ensures Blocks(ResultRecord(id, text)) == [TextBlock(text)]
  {
    var record := ResultRecord(id, text);
    var f := FollowUp([Obj([Field("toolResult", record)])]).fields;
    assert |"role"| != |"content"| && |"toolUseId"| != |"content"| && "user"[0] != "assistant"[0];
    LookupPair(f[0], f[1], "role");
    LookupPair(f[0], f[1], "content");
    LookupSingle("toolResult", record, "toolResult");
    LookupPair(record.fields[0], record.fields[1], "toolUseId");
    LookupPair(record.fields[0], record.fields[1], "content");
  }

  lemma {:induction false} OpenAiMessageFields(text: string)
    ensures var m := OpenAiMessage(text);
      && HasType(m, "message") && !HasType(m, "function_call") && !HasType(m, "function_call_output")
      && HasRole(m, "assistant") && Blocks(m) != [] && GetOrNull(Blocks(m)[0], "text") == Str(text)
  {
    var f := OpenAiMessage(text).fields;
    assert f[1..] == [f[1], f[2]];
    assert |"type"| != |"content"| && |"role"| != |"content"| && "type"[0] != "role"[0];
    assert |"message"| != |"function_call"| && |"message"| != |"function_call_output"|;
    LookupPair(f[1], f[2], "role");
    LookupPair(f[1], f[2], "content");
    var block := f[2].value.items[0];
    assert "type"[1] != "text"[1];
    LookupPair(block.fields[0], block.fields[1], "text");
  }

  lemma {:induction false} UseRecordFields(name: string, args: Dict, id: string)
    ensures var use := UseRecord(name, args, id);
      && GetOrNull(use, "toolUseId") == Str(id)
      && GetOrNull(use, "name") == Str(name) && GetOrNull(use, "input") == Obj(args)
  {
    var f := UseRecord(name, args, id).fields;
    assert f[1..] == [f[1], f[2]];
    assert |"toolUseId"| != |"name"| && |"toolUseId"| != |"input"| && |"name"| != |"input"|;
    LookupPair(f[1], f[2], "name");
    LookupPair(f[1], f[2], "input");
  }

  lemma {:induction false} AssistantBlocksFields(blocks: seq<Json>)
    ensures Blocks(AssistantBlocks(blocks)) == blocks && HasRole(AssistantBlocks(blocks), "assistant")
  {
    var f := AssistantBlocks(blocks).fields;
    assert |"role"| != |"content"|;
    LookupPair(f[0], f[1], "role");
    LookupPair(f[0], f[1], "content");
  }

  lemma {:induction false} TextBlockFields(text: string)
    ensures GetOrNull(TextBlock(text), "text") == Str(text) && Get(TextBlock(text), "text") == Some(Str(text))
    ensures Get(TextBlock(text), "toolUse") == None && Get(TextBlock(text), "toolResult") == None
  {
    assert |"text"| != |"toolUse"| && |"text"| != |"toolResult"|;
    LookupSingle("text", Str(text), "text");
    LookupSingle("text", Str(text), "toolUse");
    LookupSingle("text", Str(text), "toolResult");
  }

  lemma {:induction false} ToolUseBlockFields(name: string, args: Dict, id: string)
    ensures var block := Obj([Field("toolUse", UseRecord(name, args, id))]);
      ToolUse(block) == UseRecord(name, args, id) && Get(block, "toolUse").Some? && Get(block, "text").None?
  {
    assert |"text"| != |"toolUse"|;
    LookupSingle("toolUse", UseRecord(name, args, id), "toolUse");
    LookupSingle("toolUse", UseRecord(name, args, id), "text");
  }

  // ---- one round ------------------------------------------------------------------------

  /** Two worlds, the first of an OpenAI session, that show host and policy the same. */
  ghost predicate SameWorlds(o: World, b: World) {
    && SameRequests(o.asked, b.asked)
    && o.calls == b.calls && o.refs == b.refs && o.payload == b.payload
  }

  /** One conversation sent to both providers leads to one move. */
  lemma {:induction false} SameDecision(policy: Policy, entries: seq<Entry>, wo: World, wb: World)
    requires SameWorlds(wo, wb) && WfAll(entries)
    ensures var (o, b) := (Render(OpenAiKind, entries), Render(BedrockKind, entries));
      && SameWorlds(Ask(wo, o), Ask(wb, b))
      && Decide(OpenAiKind, policy, o, wo) == Decide(BedrockKind, policy, b, wb)
  {
    var (o, b) := (Ask(wo, Render(OpenAiKind, entries)), Ask(wb, Render(BedrockKind, entries)));
    assert SameRendering(Render(OpenAiKind, entries), Render(BedrockKind, entries));
    SameRequestsReadAlike(o.asked, b.asked);
  }

  /** What both loops do with a call, expressed once. */
  function Served(host: Host, m: Move, w: World): (World, Outcome<Json>)
    requires m.Request?
  {
    Invoke(host, w, Str(m.name), Obj(m.args))
  }

  lemma {:induction false} OutputHoldsTheCall(m: Move)
    requires m.Request?
    ensures FirstCall(OpenAiMove(m).value.output) == Some(FunctionCall(m.name, m.args, m.id))
  {
    var item := FunctionCall(m.name, m.args, m.id);
    var output := OpenAiMove(m).value.output;
    FunctionCallFields(m.name, m.args, m.id);
    if m.preamble.Some? {
      OpenAiMessageFields(m.preamble.value);
      assert output[1..] == [item];
    } else {
      assert output == [item];
    }
  }

  /** The arguments travel as JSON text to one provider and come back as the same dict. */
  lemma {:induction false} ArgumentsTravel(args: Dict)
    requires Wf(Obj(args))
    ensures ParseArguments(Str(Dumps(Obj(args), true))) == Obj(args)
  {
    RoundTrip(Obj(args), true);
  }

  function CallEntries(m: Move, result: Json): seq<Entry>
    requires m.Request?
  {
    [Called(m.preamble, m.name, m.args, m.id), Answered(m.id, FormatToolResult(result))]
  }

  /** So does any value, however its text is spaced. */
  lemma {:induction false} SpacedArgumentsTravel(
    j: Json, ascii: bool, sp: JsonSpacing.Spacing, lead: string, trail: string)
    requires Wf(j) && JsonSpacing.White(sp) && JsonSpacing.AllWhite(lead) && JsonSpacing.AllWhite(trail)
    ensures ParseArguments(Str(lead + JsonSpacing.Spaced(j, ascii, sp) + trail)) == j
  {
    JsonSpacing.SpacedReads(j, ascii, sp, lead, trail);
    JsonSpacing.SpacedHead(j, ascii, sp, trail);
  }

  /** A dict is taken as it is; no text, a text that is no JSON, and anything else make no arguments. */
  lemma {:induction false} OtherArguments(raw: Json)
    ensures raw.Obj? ==> ParseArguments(raw) == raw
    ensures !raw.Obj? && !raw.Str? ==> ParseArguments(raw) == Obj([])
    ensures raw.Str? && Loads(raw.s).None? ==> ParseArguments(raw) == Obj([])
  {
  }

  lemma {:induction false} RenderOpenAiCall(m: Move, result: Json)
    requires m.Request?
    ensures var item := FunctionCall(m.name, m.args, m.id);
      Render(OpenAiKind, CallEntries(m, result)) == [item, CallOutput(item, result)]
  {
    FunctionCallFields(m.name, m.args, m.id);
  }

  lemma {:induction false} RenderBedrockCall(m: Move, result: Json)
    requires m.Request?
    ensures Render(BedrockKind, CallEntries(m, result)) ==
      [AssistantBlocks(CallBlocks(m.preamble, m.name, m.args, m.id)),
       FollowUp([ToolResultBlock(UseRecord(m.name, m.args, m.id), result)])]
  {
    UseRecordFields(m.name, m.args, m.id);
  }

  lemma {:induction false} OpenAiCallRound(policy: Policy, host: Host, messages: seq<Json>, w: World)
    requires var m := Decide(OpenAiKind, policy, messages, w); m.Request? && Wf(Obj(m.args))
    ensures var m := Decide(OpenAiKind, policy, messages, w);
      var (w1, result) := Served(host, m, Ask(w, messages));
      RunRound(Encoded(OpenAiKind, policy), host, messages, w) ==
        if result.Raised? then Crash([], w1)
        else More(FromOpenAi(OpenAiMove(m).value), Render(OpenAiKind, CallEntries(m, result.value)), w1)
  {
    var m := Decide(OpenAiKind, policy, messages, w);
    FunctionCallFields(m.name, m.args, m.id);
    ArgumentsTravel(m.args);
    OutputHoldsTheCall(m);
    var result := Served(host, m, Ask(w, messages)).1;
    if result.Ok? {
      RenderOpenAiCall(m, result.value);
    }
  }

  lemma {:induction false} OneUseServed(host: Host, m: Move, w: World)
    requires m.Request?
    ensures var (w1, result) := Served(host, m, w);
      RunBlocks(host, [Obj([Field("toolUse", UseRecord(m.name, m.args, m.id))])], w) ==
        (w1, if result.Raised? then Raised else Ok([ToolResultBlock(UseRecord(m.name, m.args, m.id), result.value)]))
  {
    var block := Obj([Field("toolUse", UseRecord(m.name, m.args, m.id))]);
    ToolUseBlockFields(m.name, m.args, m.id);
    UseRecordFields(m.name, m.args, m.id);
    assert [block][1..] == [];
    var result := Served(host, m, w).1;
    if result.Ok? {
      var answer := ToolResultBlock(UseRecord(m.name, m.args, m.id), result.value);
      assert [answer] + [] == [answer];
    }
  }

  lemma {:induction false} BedrockBlocksServed(host: Host, m: Move, w: World)
    requires m.Request?
    ensures RunBlocks(host, CallBlocks(m.preamble, m.name, m.args, m.id), w)
      == RunBlocks(host, [Obj([Field("toolUse", UseRecord(m.name, m.args, m.id))])], w)
  {
    var blocks := CallBlocks(m.preamble, m.name, m.args, m.id);
    var block := Obj([Field("toolUse", UseRecord(m.name, m.args, m.id))]);
    if m.preamble.Some? {
      TextBlockFields(m.preamble.value);
      assert blocks[1..] == [block];
    } else {
      assert blocks == [block];
    }
  }

  lemma {:induction false} BedrockCallRound(policy: Policy, host: Host, messages: seq<Json>, w: World)
    requires Decide(BedrockKind, policy, messages, w).Request?
    ensures var m := Decide(BedrockKind, policy, messages, w);
      var (w1, result) := Served(host, m, Ask(w, messages));
      var round := RunRound(Encoded(BedrockKind, policy), host, messages, w);
      if result.Raised? then round.Crash? && round.world == w1
      else round == More(FromBedrock(BedrockMove(m).value), Render(BedrockKind, CallEntries(m, result.value)), w1)
  {
    var m := Decide(BedrockKind, policy, messages, w);
    AssistantBlocksFields(CallBlocks(m.preamble, m.name, m.args, m.id));
    BedrockBlocksServed(host, m, Ask(w, messages));
    OneUseServed(host, m, Ask(w, messages));
    var result := Served(host, m, Ask(w, messages)).1;
    if result.Ok? {
      RenderBedrockCall(m, result.value);
    }
  }

  lemma {:induction false} SayRounds(kind: Kind, policy: Policy, host: Host, messages: seq<Json>, w: World)
    requires Decide(kind, policy, messages, w).Say?
    ensures var m := Decide(kind, policy, messages, w);
      RunRound(Encoded(kind, policy), host, messages, w)
        == Stop(LastResponse(kind, Some(m)).value, Render(kind, [Said(m.text)]), Ask(w, messages))
  {
    var m := Decide(kind, policy, messages, w);
    OpenAiMessageFields(m.text);
    assert [OpenAiMessage(m.text)][1..] == [];
    assert FirstCall([OpenAiMessage(m.text)]) == None;
    assert MessageItems([OpenAiMessage(m.text)]) == [OpenAiMessage(m.text)];
    assert "end_turn"[0] != "tool_use"[0];
  }

  // ---- whole loops ---------------------------------------------------------------------------

  ghost predicate WellFormedCalls(policy: Policy) {
    forall asked, calls :: policy(asked, calls).Request? ==> Wf(Obj(policy(asked, calls).args))
  }

  lemma {:induction false} RenderConcat(kind: Kind, a: seq<Entry>, b: seq<Entry>)
    ensures Render(kind, a + b) == Render(kind, a) + Render(kind, b)
  {
  }

  /** Two loop results that hold one conversation, `before` extended to `all`, and one last move. */
  ghost predicate Agree(ro: LoopResult, rb: LoopResult, before: seq<Entry>, all: seq<Entry>, final: Option<Move>) {
    && SameWorlds(ro.world, rb.world)
    && (ro.response.Ok? <==> rb.response.Ok?)
    && (ro.response.Ok? ==>
         && before <= all && WfAll(all)
         && ro.messages == Render(OpenAiKind, all) && rb.messages == Render(BedrockKind, all)
         && ro.response.value == LastResponse(OpenAiKind, final)
         && rb.response.value == LastResponse(BedrockKind, final))
  }

  /** The loop behind one provider, started on a conversation. */
  function PolicyLoop(
    kind: Kind, policy: Policy, host: Host, before: seq<Entry>, rounds: nat, last: Option<Move>, w: World): LoopResult
  {
    Loop(Encoded(kind, policy), host, Render(kind, before), rounds, LastResponse(kind, last), w)
  }

  /** A move that calls a tool takes both loops to the same next round, or ends both. */
  lemma {:induction false} CallRounds(policy: Policy, host: Host, before: seq<Entry>, wo: World, wb: World)
    returns (now: seq<Entry>, wo1: World, wb1: World)
    requires WellFormedCalls(policy) && SameWorlds(wo, wb) && WfAll(before)
    requires Decide(OpenAiKind, policy, Render(OpenAiKind, before), wo).Request?
    ensures var m := Decide(OpenAiKind, policy, Render(OpenAiKind, before), wo);
      var x := RunRound(Encoded(OpenAiKind, policy), host, Render(OpenAiKind, before), wo);
      var y := RunRound(Encoded(BedrockKind, policy), host, Render(BedrockKind, before), wb);
      && SameWorlds(wo1, wb1) && x.world == wo1 && y.world == wb1 && WfAll(before + now)
      && ((x.Crash? && y.Crash?)
          || (&& x == More(LastResponse(OpenAiKind, Some(m)).value, Render(OpenAiKind, now), wo1)
              && y == More(LastResponse(BedrockKind, Some(m)).value, Render(BedrockKind, now), wb1)))
  {
    var (o, b) := (Render(OpenAiKind, before), Render(BedrockKind, before));
    var m := Decide(OpenAiKind, policy, o, wo);
    SameDecision(policy, before, wo, wb);
    OpenAiCallRound(policy, host, o, wo);
    BedrockCallRound(policy, host, b, wb);
    var result := Served(host, m, Ask(wo, o)).1;
    wo1, wb1 := Served(host, m, Ask(wo, o)).0, Served(host, m, Ask(wb, b)).0;
    now := if result.Ok? then CallEntries(m, result.value) else [];
  }

  /** A final text ends the loop with one more entry. */
  lemma {:induction false} SayLoop(
    kind: Kind, policy: Policy, host: Host, before: seq<Entry>, rounds: nat, last: Option<Move>, w: World)
    requires rounds > 0 && Decide(kind, policy, Render(kind, before), w).Say?
    ensures var m := Decide(kind, policy, Render(kind, before), w);
      PolicyLoop(kind, policy, host, before, rounds, last, w) == LoopResult(
        Ok(LastResponse(kind, Some(m))), Render(kind, before + [Said(m.text)]), Ask(w, Render(kind, before)))
  {
    var m := Decide(kind, policy, Render(kind, before), w);
    SayRounds(kind, policy, host, Render(kind, before), w);
    RenderConcat(kind, before, [Said(m.text)]);
  }

  /** A move without a call ends both loops. */
  lemma {:induction false} LastRounds(
    policy: Policy, host: Host, before: seq<Entry>, rounds: nat, last: Option<Move>, wo: World, wb: World)
    returns (all: seq<Entry>, final: Option<Move>)
    requires rounds > 0 && SameWorlds(wo, wb) && WfAll(before)
    requires !Decide(OpenAiKind, policy, Render(OpenAiKind, before), wo).Request?
    ensures Agree(
      PolicyLoop(OpenAiKind, policy, host, before, rounds, last, wo),
      PolicyLoop(BedrockKind, policy, host, before, rounds, last, wb), before, all, final)
  {
    var m := Decide(OpenAiKind, policy, Render(OpenAiKind, before), wo);
    SameDecision(policy, before, wo, wb);
    all, final := before, Some(m);
    if m.Say? {
      all := before + [Said(m.text)];
      SayLoop(OpenAiKind, policy, host, before, rounds, last, wo);
      SayLoop(BedrockKind, policy, host, before, rounds, last, wb);
    } else {
      RoundThatRaises(OpenAiKind, policy, host, before, rounds, last, wo);
      RoundThatRaises(BedrockKind, policy, host, before, rounds, last, wb);
    }
  }

  /** A round that goes on extends the conversation and leaves the rest to the next ones. */
  lemma {:induction false} NextRound(
    kind: Kind, policy: Policy, host: Host, before: seq<Entry>, now: seq<Entry>, rounds: nat,
    last: Option<Move>, m: Move, w: World, w1: World)
    requires rounds > 0 && m.Request?
    requires RunRound(Encoded(kind, policy), host, Render(kind, before), w)
      == More(LastResponse(kind, Some(m)).value, Render(kind, now), w1)
    ensures PolicyLoop(kind, policy, host, before, rounds, last, w)
      == PolicyLoop(kind, policy, host, before + now, rounds - 1, Some(m), w1)
  {
    RenderConcat(kind, before, now);
  }

  lemma {:induction false} AgreeOnMore(
    ro: LoopResult, rb: LoopResult, before: seq<Entry>, now: seq<Entry>, all: seq<Entry>, final: Option<Move>)
    requires Agree(ro, rb, before + now, all, final)
    ensures Agree(ro, rb, before, all, final)
  {
    assert before <= before + now;
  }

  lemma {:induction false} NoRounds(
    policy: Policy, host: Host, before: seq<Entry>, last: Option<Move>, wo: World, wb: World)
    requires SameWorlds(wo, wb) && WfAll(before)
    ensures Agree(
      PolicyLoop(OpenAiKind, policy, host, before, 0, last, wo),
      PolicyLoop(BedrockKind, policy, host, before, 0, last, wb), before, before, last)
  {
  }

  lemma {:induction false} RoundThatRaises(
    kind: Kind, policy: Policy, host: Host, before: seq<Entry>, rounds: nat, last: Option<Move>, w: World)
    requires rounds > 0 && RunRound(Encoded(kind, policy), host, Render(kind, before), w).Crash?
    ensures var r := PolicyLoop(kind, policy, host, before, rounds, last, w);
      r.response.Raised? && r.world == RunRound(Encoded(kind, policy), host, Render(kind, before), w).world
  {
  }

  /** After a move that calls a tool both loops have raised, or both go on with one longer conversation. */
  lemma {:induction false} CallLoops(
    policy: Policy, host: Host, before: seq<Entry>, rounds: nat, last: Option<Move>, m: Move, wo: World, wb: World)
    returns (more: bool, now: seq<Entry>, wo1: World, wb1: World)
    requires WellFormedCalls(policy) && SameWorlds(wo, wb) && WfAll(before) && rounds > 0
    requires m == Decide(OpenAiKind, policy, Render(OpenAiKind, before), wo) && m.Request?
    ensures SameWorlds(wo1, wb1) && WfAll(before + now)
    ensures var (x, y) := (PolicyLoop(OpenAiKind, policy, host, before, rounds, last, wo),
        PolicyLoop(BedrockKind, policy, host, before, rounds, last, wb));
      if more then
        && x == PolicyLoop(OpenAiKind, policy, host, before + now, rounds - 1, Some(m), wo1)
        && y == PolicyLoop(BedrockKind, policy, host, before + now, rounds - 1, Some(m), wb1)
      else Agree(x, y, before, before, last)
  {
    now, wo1, wb1 := CallRounds(policy, host, before, wo, wb);
    more := RunRound(Encoded(OpenAiKind, policy), host, Render(OpenAiKind, before), wo).More?;
    if more {
      NextRound(OpenAiKind, policy, host, before, now, rounds, last, m, wo, wo1);
      NextRound(BedrockKind, policy, host, before, now, rounds, last, m, wb, wb1);
    } else {
      RoundThatRaises(OpenAiKind, policy, host, before, rounds, last, wo);
      RoundThatRaises(BedrockKind, policy, host, before, rounds, last, wb);
    }
  }

  /** One round of both loops: they end in agreement, or both go on with the same longer conversation. */
  datatype Step = Ended(all: seq<Entry>, final: Option<Move>) | Goes(now: seq<Entry>, m: Move, wo: World, wb: World)

  lemma {:induction false} OneRound(
    policy: Policy, host: Host, before: seq<Entry>, rounds: nat, last: Option<Move>, wo: World, wb: World)
    returns (step: Step)
    requires WellFormedCalls(policy) && SameWorlds(wo, wb) && WfAll(before) && rounds > 0
    ensures var (x, y) := (PolicyLoop(OpenAiKind, policy, host, before, rounds, last, wo),
        PolicyLoop(BedrockKind, policy, host, before, rounds, last, wb));
      match step
      case Ended(all, final) => Agree(x, y, before, all, final)
      case Goes(now, m, wo1, wb1) =>
        && SameWorlds(wo1, wb1) && WfAll(before + now)
        && x == PolicyLoop(OpenAiKind, policy, host, before + now, rounds - 1, Some(m), wo1)
        && y == PolicyLoop(BedrockKind, policy, host, before + now, rounds - 1, Some(m), wb1)
  {
    var m := Decide(OpenAiKind, policy, Render(OpenAiKind, before), wo);
    if m.Request? {
      var more, now, wo1, wb1 := CallLoops(policy, host, before, rounds, last, m, wo, wb);
      step := if more then Goes(now, m, wo1, wb1) else Ended(before, last);
    } else {
      var all, final := LastRounds(policy, host, before, rounds, last, wo, wb);
      step := Ended(all, final);
    }
  }

  /**
   Encoded for either provider, a policy of at most one call per round drives both loops through
   the same requests and host calls, with the same arguments and results and in the same order.
   Both end with a response or neither does; then both transcripts render one and the same
   conversation, whether the loop ended by itself or hit the round cap.
   */
  lemma {:induction false} CrossProviderSimulation(
    policy: Policy, host: Host, before: seq<Entry>, rounds: nat, last: Option<Move>, wo: World, wb: World)
    returns (all: seq<Entry>, final: Option<Move>)
    requires WellFormedCalls(policy) && SameWorlds(wo, wb) && WfAll(before)
    ensures Agree(
      PolicyLoop(OpenAiKind, policy, host, before, rounds, last, wo),
      PolicyLoop(BedrockKind, policy, host, before, rounds, last, wb), before, all, final)
    decreases rounds
  {
    if rounds == 0 {
      all, final := before, last;
      NoRounds(policy, host, before, last, wo, wb);
    } else {
      var step := OneRound(policy, host, before, rounds, last, wo, wb);
      match step {
        case Ended(allEntries, move) => all, final := allEntries, move;
        case Goes(now, m, wo1, wb1) =>
          all, final := CrossProviderSimulation(policy, host, before + now, rounds - 1, Some(m), wo1, wb1);
          AgreeOnMore(
            PolicyLoop(OpenAiKind, policy, host, before + now, rounds - 1, Some(m), wo1),
            PolicyLoop(BedrockKind, policy, host, before + now, rounds - 1, Some(m), wb1), before, now, all, final);
      }
    }
  }

  /** Both handlers file an entry under the same sender. */
  lemma {:induction false} SameSenders(e: Entry)
    ensures SenderFor(OpenAiKind, OpenAiEntry(e)) == SenderFor(BedrockKind, BedrockEntry(e))
      == (match e case Prompted(_) => SenderUser case Said(_) => SenderAssistant case _ => SenderTool)
  {
    match e
    case Prompted(text) =>
      PromptFields(OpenAiKind, text);
      PromptFields(BedrockKind, text);
      TextBlockFields(text);
      assert "user"[0] != "assistant"[0];
    case Called(preamble, name, args, id) =>
      FunctionCallFields(name, args, id);
      AssistantBlocksFields(CallBlocks(preamble, name, args, id));
      ToolUseBlockFields(name, args, id);
      var blocks := CallBlocks(preamble, name, args, id);
      assert IsPlumbingBlock(blocks[|blocks| - 1]);
    case Answered(id, text) =>
      OutputItemFields(id, text);
      ResultFields(id, text);
      assert IsPlumbingBlock(Blocks(BedrockEntry(e))[0]);
    case Said(text) =>
      OpenAiMessageFields(text);
      AssistantBlocksFields([TextBlock(text)]);
      TextBlockFields(text);
  }

  /** Both handlers summarise a tool result, and a final text, in the same words. */
  lemma {:induction false} SameSummaries(repr: Repr, e: Entry)
    requires e.Answered? || e.Said?
    ensures OpenAiSummary(repr, OpenAiEntry(e)) == BedrockSummary(repr, BedrockEntry(e))
      == TruncateSummary(if e.Said? then e.text else "tool_result: " + e.text)
  {
    match e
    case Said(text) => SaidSummaries(repr, text);
    case Answered(id, text) => AnsweredSummaries(repr, id, text);
  }

  lemma {:induction false} SaidSummaries(repr: Repr, text: string)
    ensures OpenAiSummary(repr, OpenAiMessage(text)) == TruncateSummary(text)
    ensures BedrockSummary(repr, AssistantBlocks([TextBlock(text)])) == TruncateSummary(text)
  {
    OpenAiMessageFields(text);
    var content := OpenAiMessage(text).fields[2].value;
    var block := content.items[0];
    assert "type"[0] != "text"[0] || "type"[1] != "text"[1];
    LookupPair(block.fields[0], block.fields[1], "text");
    assert |"role"| != |"content"| && |"type"| != |"content"|;
    var f := OpenAiMessage(text).fields;
    assert f[1..] == [f[1], f[2]];
    LookupPair(f[1], f[2], "content");
    assert FirstTyped(content.items, "output_text") == Str(text);
    assert OpenAiContentText(repr, OpenAiMessage(text)) == text;
    AssistantBlocksFields([TextBlock(text)]);
    TextBlockFields(text);
    assert [TextBlock(text)][1..] == [];
    assert TextParts(repr, [TextBlock(text)]) == [text];
  }

  lemma {:induction false} AnsweredSummaries(repr: Repr, id: string, text: string)
    ensures OpenAiSummary(repr, OpenAiEntry(Answered(id, text))) == TruncateSummary("tool_result: " + text)
    ensures BedrockSummary(repr, BedrockEntry(Answered(id, text))) == TruncateSummary("tool_result: " + text)
  {
    OutputItemFields(id, text);
    ResultFields(id, text);
    TextBlockFields(text);
    var record := ResultRecord(id, text);
    var block := Obj([Field("toolResult", record)]);
    assert |"toolResult"| != |"text"| && |"toolResult"| != |"toolUse"|;
    LookupSingle("toolResult", record, "text");
    LookupSingle("toolResult", record, "toolUse");
    assert [block][1..] == [] && [TextBlock(text)][1..] == [];
    assert Join(InnerTexts(repr, [TextBlock(text)]), " ") == text;
    assert TextParts(repr, [block]) == [] && UseNames(repr, [block]) == [];
    assert ResultSummary(repr, [block]) == Some(text);
  }

  /** A call is summarised by its name and arguments, for Bedrock by the text beside it if there is one. */
  lemma {:induction false} CalledSummaries(
    repr: Repr, preamble: Option<string>, name: string, args: Dict, id: string)
    ensures OpenAiSummary(repr, OpenAiEntry(Called(preamble, name, args, id)))
      == TruncateSummary("tool: " + name + "(" + Dumps(Obj(args), true) + ")")
    ensures BedrockSummary(repr, BedrockEntry(Called(preamble, name, args, id)))
      == TruncateSummary(if preamble.Some? then preamble.value else "tool: " + if name == "" then "?" else name)
  {
    FunctionCallFields(name, args, id);
    assert Dumps(Obj(args), true) != "";
    var blocks := CallBlocks(preamble, name, args, id);
    var block := Obj([Field("toolUse", UseRecord(name, args, id))]);
    AssistantBlocksFields(blocks);
    ToolUseBlockFields(name, args, id);
    UseRecordFields(name, args, id);
    assert [block][1..] == [];
    assert UseNames(repr, [block]) == [if name == "" then "?" else name] && TextParts(repr, [block]) == [];
    if preamble.Some? {
      TextBlockFields(preamble.value);
      assert blocks == [TextBlock(preamble.value), block] && blocks[1..] == [block];
      assert TextParts(repr, blocks) == [preamble.value];
    } else {
      assert blocks == [block];
    }
  }

  function SpokenText(m: Move): string {
    match m
    case Request(preamble, _, _, _) => if preamble.Some? then preamble.value else ""
    case Say(text) => text
    case Fail => ""
  }

  lemma {:induction false} RequestTexts(m: Move)
    requires m.Request?
    ensures OpenAiText(OpenAiMove(m).value.output) == SpokenText(m)
    ensures BedrockText(CallBlocks(m.preamble, m.name, m.args, m.id)) == SpokenText(m)
  {
    var output := OpenAiMove(m).value.output;
    var item := FunctionCall(m.name, m.args, m.id);
    var blocks := CallBlocks(m.preamble, m.name, m.args, m.id);
    var block := Obj([Field("toolUse", UseRecord(m.name, m.args, m.id))]);
    FunctionCallFields(m.name, m.args, m.id);
    ToolUseBlockFields(m.name, m.args, m.id);
    assert [item][1..] == [] && [block][1..] == [];
    assert OpenAiText([]) == "" && BedrockText([]) == "";
    assert BedrockText([block]) == BedrockText([block][1..]) == "";
    assert OpenAiText([item]) == OpenAiText([item][1..]) == "";
    if m.preamble.Some? {
      OpenAiMessageFields(m.preamble.value);
      TextBlockFields(m.preamble.value);
      assert blocks[1..] == [block];
    } else {
      assert output == [item] && blocks == [block];
    }
  }

  /** Both handlers show the user what the final move says. */
  lemma {:induction false} SameResponseText(final: Move)
    requires !final.Fail?
    ensures ExtractResponseText(OpenAiKind, LastResponse(OpenAiKind, Some(final))) == SpokenText(final)
    ensures ExtractResponseText(BedrockKind, LastResponse(BedrockKind, Some(final))) == SpokenText(final)
  {
    match final
    case Say(text) =>
      OpenAiMessageFields(text);
      AssistantBlocksFields([TextBlock(text)]);
      TextBlockFields(text);
      assert [TextBlock(text)][1..] == [];
      assert BedrockText([TextBlock(text)]) == text;
    case Request(preamble, name, args, id) =>
      AssistantBlocksFields(CallBlocks(preamble, name, args, id));
      RequestTexts(final);
  }
}
