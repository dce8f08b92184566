/**
 The provider-shape adapters: `OpenAiChatHandler` and `BedrockChatHandler`. `repr` stands
 for Python's `str()` of a value that is not a string.
 */
module Handlers {
  import opened Results
  import opened JsonValues
  import opened JsonText
  import opened Rounds

  datatype Sender = SenderUser | SenderAssistant | SenderTool

  const MAX_CONTENT_SUMMARY_LEN := 500

  type Repr = Json -> string

  function TruncateSummary(text: string): (r: string)
    ensures |text| <= 500 ==> r == text
    ensures |text| > 500 ==> |r| == 500 && r[..499] == text[..499] && r[499] == '\U{2026}'
  {
    if |text| <= MAX_CONTENT_SUMMARY_LEN then text
    else text[..MAX_CONTENT_SUMMARY_LEN - 1] + "\U{2026}"
  }

  function StrOf(repr: Repr, j: Json): string {
    if j.Str? then j.s else repr(j)
  }

  /** `str(j or default)`. */
  function StrOr(repr: Repr, j: Json, default: string): string {
    if Truthy(j) then StrOf(repr, j) else default
  }

  function BuildUserPrompt(kind: Kind, command: string): Json {
    Obj([Field("role", Str("user")),
      Field("content", if kind.OpenAiKind? then Str(command) else Arr([TextBlock(command)]))])
  }

  /** `stored_to_input_message` of both handlers. */
  function StoredToInputMessage(stored: Json): Json {
    stored
  }

  predicate HasRole(m: Json, role: string) {
    Get(m, "role") == Some(Str(role))
  }

  predicate IsPlumbingBlock(block: Json) {
    Get(block, "toolResult").Some? || Get(block, "toolUse").Some?
  }

  function SenderFor(kind: Kind, m: Json): Sender {
    if kind.OpenAiKind? && (HasType(m, "function_call") || HasType(m, "function_call_output")) then SenderTool
    else if kind.BedrockKind? && (exists i :: 0 <= i < |Blocks(m)| && IsPlumbingBlock(Blocks(m)[i])) then SenderTool
    else if HasRole(m, "assistant") then SenderAssistant
    else SenderUser
  }

  // ---- OpenAI summaries -----------------------------------------------------

  /** The text of the first block of the given type. */
  function FirstTyped(blocks: seq<Json>, kind: string): Json {
    if blocks == [] then Str("")
    else if HasType(blocks[0], kind) then
      if Get(blocks[0], "text").Some? then Get(blocks[0], "text").value else Str("")
    else FirstTyped(blocks[1..], kind)
  }

  function OpenAiContentText(repr: Repr, m: Json): string {
    var content := GetOrNull(m, "content");
    if content.Arr? && content.items != []
      then StrOf(repr, FirstTyped(content.items, if HasRole(m, "assistant") then "output_text" else "text"))
      else StrOr(repr, content, "")
  }

  function OpenAiSummary(repr: Repr, m: Json): string {
    if HasType(m, "function_call") then
      var name := Get(m, "name");
      TruncateSummary("tool: " + (if name.Some? then StrOf(repr, name.value) else "?") + "("
        + StrOr(repr, GetOrNull(m, "arguments"), "") + ")")
    else if HasType(m, "function_call_output") then
      TruncateSummary("tool_result: " + StrOr(repr, GetOrNull(m, "output"), ""))
    else if HasRole(m, "user") || HasRole(m, "assistant") then TruncateSummary(OpenAiContentText(repr, m))
    else TruncateSummary(Dumps(m, true))
  }

  // ---- Bedrock summaries -------------------------------------------------------

  function Join(parts: seq<string>, sep: string): string {
    if parts == [] then "" else if |parts| == 1 then parts[0] else parts[0] + sep + Join(parts[1..], sep)
  }

  function TextParts(repr: Repr, blocks: seq<Json>): seq<string> {
    if blocks == [] then [] else
    (if Get(blocks[0], "text").Some? then [StrOr(repr, GetOrNull(blocks[0], "text"), "")] else [])
    + TextParts(repr, blocks[1..])
  }

  function UseNames(repr: Repr, blocks: seq<Json>): seq<string> {
    if blocks == [] then [] else
    (if ToolUse(blocks[0]).Obj? then [StrOr(repr, GetOrNull(ToolUse(blocks[0]), "name"), "?")] else [])
    + UseNames(repr, blocks[1..])
  }

  function InnerTexts(repr: Repr, parts: seq<Json>): seq<string> {
    if parts == [] then [] else
    (if Truthy(GetOrNull(parts[0], "text")) then [StrOf(repr, GetOrNull(parts[0], "text"))] else [])
    + InnerTexts(repr, parts[1..])
  }

  /** The summary of the last `toolResult` block, if there is one. */
  function ResultSummary(repr: Repr, blocks: seq<Json>): Option<string> {
    if blocks == [] then None
    else
      var later := ResultSummary(repr, blocks[1..]);
      var result := GetOrNull(blocks[0], "toolResult");
      if later.Some? || !result.Obj? then later
      else Some(Join(InnerTexts(repr, Blocks(result)), " "))
  }

  function BedrockSummary(repr: Repr, m: Json): string {
    var content := GetOrNull(m, "content");
    if !content.Arr? then TruncateSummary(Dumps(m, true)) else
    var texts := TextParts(repr, content.items);
    var names := UseNames(repr, content.items);
    var result := ResultSummary(repr, content.items);
    if texts != [] then TruncateSummary(Join(texts, " "))
    else if names != [] then TruncateSummary("tool: " + Join(names, ", "))
    else if result.Some? then TruncateSummary("tool_result: " + result.value)
    else TruncateSummary("[" + StrOr(repr, GetOrNull(m, "role"), "?") + ": empty]")
  }

  lemma {:induction false} SummariesExtend(repr: Repr, blocks: seq<Json>, k: nat)
    requires k < |blocks|
    ensures var (a, b) := (blocks[..k], blocks[k]);
      && TextParts(repr, blocks[..k + 1]) == TextParts(repr, a) + TextParts(repr, [b])
      && UseNames(repr, blocks[..k + 1]) == UseNames(repr, a) + UseNames(repr, [b])
      && ResultSummary(repr, blocks[..k + 1]) ==
        if ResultSummary(repr, [b]).Some? then ResultSummary(repr, [b]) else ResultSummary(repr, a)
    decreases k
  {
    if k == 0 {
      assert blocks[..1] == [blocks[0]];
    } else {
      var rest := blocks[1..];
      assert blocks[..k + 1][1..] == rest[..k] && blocks[..k][1..] == rest[..k - 1];
      SummariesExtend(repr, rest, k - 1);
    }
  }

  /** `BedrockChatHandler.summarize_for_storage`, block by block. */
  method BedrockSummarizeForStorage(repr: Repr, message: Json) returns (summary: string)
    ensures summary == BedrockSummary(repr, message)
  {
    var content := GetOrNull(message, "content");
    if !content.Arr? {
      return TruncateSummary(Dumps(message, true));
    }
    var textParts: seq<string> := [];
    var toolUseNames: seq<string> := [];
    var toolResultSummary: Option<string> := None;
    var i := 0;
    while i < |content.items|
      invariant 0 <= i <= |content.items|
      invariant textParts == TextParts(repr, content.items[..i])
      invariant toolUseNames == UseNames(repr, content.items[..i])
      invariant toolResultSummary == ResultSummary(repr, content.items[..i])
    {
      var block := content.items[i];
      SummariesExtend(repr, content.items, i);
      assert [block][1..] == [];
      if Get(block, "text").Some? {
        textParts := textParts + [StrOr(repr, GetOrNull(block, "text"), "")];
      }
      var toolUse := ToolUse(block);
      if toolUse.Obj? {
        toolUseNames := toolUseNames + [StrOr(repr, GetOrNull(toolUse, "name"), "?")];
      }
      var toolResult := GetOrNull(block, "toolResult");
      if toolResult.Obj? {
        toolResultSummary := Some(Join(InnerTexts(repr, Blocks(toolResult)), " "));
      }
      i := i + 1;
    }
    assert content.items[..i] == content.items;
    if textParts != [] {
      return TruncateSummary(Join(textParts, " "));
    }
    if toolUseNames != [] {
      return TruncateSummary("tool: " + Join(toolUseNames, ", "));
    }
    if toolResultSummary.Some? {
      return TruncateSummary("tool_result: " + toolResultSummary.value);
    }
    return TruncateSummary("[" + StrOr(repr, GetOrNull(message, "role"), "?") + ": empty]");
  }

  /** Whatever the message, the summary fits the column. */
  function SummarizeForStorage(kind: Kind, repr: Repr, m: Json): (r: string)
    ensures |r| <= MAX_CONTENT_SUMMARY_LEN
  {
    if kind.OpenAiKind? then OpenAiSummary(repr, m) else BedrockSummary(repr, m)
  }

  /** Both handlers summarise a prompt as what the user typed, cut to the column. */
  lemma PromptSummary(kind: Kind, repr: Repr, command: string)
    ensures SummarizeForStorage(kind, repr, BuildUserPrompt(kind, command)) == TruncateSummary(command)
  {
    var fields := BuildUserPrompt(kind, command).fields;
    PromptFields(kind, command);
    if kind.BedrockKind? {
      LookupSingle("text", Str(command), "text");
      assert [TextBlock(command)][1..] == [];
      assert TextParts(repr, [TextBlock(command)]) == [command];
    }
  }

  lemma PromptFields(kind: Kind, command: string)
    ensures var m := BuildUserPrompt(kind, command);
      && Get(m, "role") == Some(Str("user")) && Get(m, "type") == None
      && Get(m, "content") == Some(if kind.OpenAiKind? then Str(command) else Arr([TextBlock(command)]))
  {
    var fields := BuildUserPrompt(kind, command).fields;
    assert |"role"| != |"content"| && "role"[0] != "type"[0];
    LookupPair(fields[0], fields[1], "role");
    LookupPair(fields[0], fields[1], "content");
    LookupPair(fields[0], fields[1], "type");
  }

  // ---- the text shown to the user -----------------------------------------------------

  function TextOf(j: Json): string {
    if j.Str? then j.s else ""
  }

  function OpenAiText(output: seq<Json>): string {
    if output == [] then ""
    else if HasType(output[0], "message") && Blocks(output[0]) != []
      then TextOf(GetOrNull(Blocks(output[0])[0], "text"))
    else OpenAiText(output[1..])
  }

  function BedrockText(blocks: seq<Json>): string {
    if blocks == [] then ""
    else if Truthy(GetOrNull(blocks[0], "text")) then TextOf(GetOrNull(blocks[0], "text"))
    else BedrockText(blocks[1..])
  }

  /** `extract_response_text`; a handler finds no text in the other provider's response. */
  function ExtractResponseText(kind: Kind, response: Option<Response>): string {
    if response.None? then ""
    else if kind.OpenAiKind? && response.value.FromOpenAi? then OpenAiText(response.value.openai.output)
    else if kind.BedrockKind? && response.value.FromBedrock? then BedrockText(Blocks(response.value.bedrock.message))
    else ""
  }

  /** OpenAI shows the first block of the first message that has any. */
  lemma {:induction false} OpenAiTextIsFirst(output: seq<Json>, k: nat)
    requires k <= |output|
    requires forall i :: 0 <= i < k ==> !HasType(output[i], "message") || Blocks(output[i]) == []
    ensures k == |output| ==> OpenAiText(output) == ""
    ensures k < |output| && HasType(output[k], "message") && Blocks(output[k]) != [] ==>
      OpenAiText(output) == TextOf(GetOrNull(Blocks(output[k])[0], "text"))
  {
    if k > 0 {
      OpenAiTextIsFirst(output[1..], k - 1);
    }
  }

  /** Bedrock shows the first text that is not empty. */
  lemma {:induction false} BedrockTextIsFirst(blocks: seq<Json>, k: nat)
    requires k <= |blocks|
    requires forall i :: 0 <= i < k ==> !Truthy(GetOrNull(blocks[i], "text"))
    ensures k == |blocks| ==> BedrockText(blocks) == ""
    ensures k < |blocks| && Truthy(GetOrNull(blocks[k], "text")) ==>
      BedrockText(blocks) == TextOf(GetOrNull(blocks[k], "text"))
  {
    if k > 0 {
      BedrockTextIsFirst(blocks[1..], k - 1);
    }
  }

  // ---- summaries of messages with several blocks -------------------------------

  lemma JoinTwo(a: string, b: string, sep: string)
    ensures Join([a, b], sep) == a + sep + b
  {
    assert [a, b][1..] == [b];
    assert Join([b], sep) == b;
  }

  /** Two texts are summarised one after the other, whatever the role. */
  lemma TwoTextsSummary(repr: Repr, m: Json, a: string, b: string)
    requires Get(m, "content") == Some(Arr([TextBlock(a), TextBlock(b)]))
    ensures BedrockSummary(repr, m) == TruncateSummary(a + " " + b)
  {
    LookupSingle("text", Str(a), "text");
    LookupSingle("text", Str(b), "text");
    assert [TextBlock(a), TextBlock(b)][1..] == [TextBlock(b)] && [TextBlock(b)][1..] == [];
    assert TextParts(repr, [TextBlock(b)]) == [b];
    assert TextParts(repr, [TextBlock(a), TextBlock(b)]) == [a, b];
    JoinTwo(a, b, " ");
  }

  function UseOf(name: string): Json {
    Obj([Field("toolUse", Obj([Field("name", Str(name))]))])
  }

  lemma UseOfReads(repr: Repr, name: string)
    requires name != ""
    ensures TextParts(repr, [UseOf(name)]) == [] && UseNames(repr, [UseOf(name)]) == [name]
  {
    var use := Obj([Field("name", Str(name))]);
    assert |"toolUse"| != |"text"| && [UseOf(name)][1..] == [];
    LookupSingle("toolUse", use, "toolUse");
    LookupSingle("toolUse", use, "text");
    LookupSingle("name", Str(name), "name");
  }

  /** Two calls without text are summarised by their names. */
  lemma TwoUsesSummary(repr: Repr, m: Json, a: string, b: string)
    requires Get(m, "content") == Some(Arr([UseOf(a), UseOf(b)])) && a != "" && b != ""
    ensures BedrockSummary(repr, m) == TruncateSummary("tool: " + (a + ", " + b))
  {
    UseOfReads(repr, a);
    UseOfReads(repr, b);
    var blocks := [UseOf(a), UseOf(b)];
    assert blocks[1..] == [UseOf(b)];
    JoinTwo(a, b, ", ");
    assert TextParts(repr, blocks) == TextParts(repr, [UseOf(a)]) + TextParts(repr, blocks[1..]);
    assert UseNames(repr, blocks) == UseNames(repr, [UseOf(a)]) + UseNames(repr, blocks[1..]);
    assert UseNames(repr, blocks) == [a, b];
  }

  /** A message without blocks is summarised by its role; one without a block list, by its JSON. */
  lemma OtherSummaries(repr: Repr, m: Json, role: string)
    ensures Get(m, "content") == Some(Arr([])) && HasRole(m, role) && role != "" ==>
      BedrockSummary(repr, m) == TruncateSummary("[" + role + ": empty]")
    ensures !GetOrNull(m, "content").Arr? ==> BedrockSummary(repr, m) == TruncateSummary(Dumps(m, true))
    ensures Get(m, "type").None? && Get(m, "role").None? ==> OpenAiSummary(repr, m) == TruncateSummary(Dumps(m, true))
  {
  }

  function ResultOf(texts: seq<Json>): Json {
    Obj([Field("toolResult", Obj([Field("content", Arr(texts))]))])
  }

  lemma ResultOfReads(repr: Repr, texts: seq<Json>, later: seq<Json>)
    ensures var blocks := [ResultOf(texts)] + later;
      && TextParts(repr, blocks) == TextParts(repr, later) && UseNames(repr, blocks) == UseNames(repr, later)
      && ResultSummary(repr, blocks) ==
           if ResultSummary(repr, later).Some? then ResultSummary(repr, later)
           else Some(Join(InnerTexts(repr, texts), " "))
  {
    var result := Obj([Field("content", Arr(texts))]);
    assert |"toolResult"| != |"text"| && |"toolResult"| != |"toolUse"|;
    assert ([ResultOf(texts)] + later)[1..] == later;
    LookupSingle("toolResult", result, "toolResult");
    LookupSingle("toolResult", result, "toolUse");
    LookupSingle("toolResult", result, "text");
    LookupSingle("content", Arr(texts), "content");
  }

  /** Of several results the last is summarised, its texts one after the other. */
  lemma LastResultSummary(repr: Repr, m: Json, first: seq<Json>, a: string, b: string)
    requires a != "" && b != ""
    requires Get(m, "content") == Some(Arr([ResultOf(first), ResultOf([TextBlock(a), TextBlock(b)])]))
    ensures BedrockSummary(repr, m) == TruncateSummary("tool_result: " + (a + " " + b))
  {
    var texts := [TextBlock(a), TextBlock(b)];
    ResultOfReads(repr, texts, []);
    ResultOfReads(repr, first, [ResultOf(texts)]);
    assert [ResultOf(texts)] + [] == [ResultOf(texts)];
    assert [ResultOf(first)] + [ResultOf(texts)] == [ResultOf(first), ResultOf(texts)];
    LookupSingle("text", Str(a), "text");
    LookupSingle("text", Str(b), "text");
    assert texts[1..] == [TextBlock(b)] && [TextBlock(b)][1..] == [];
    assert InnerTexts(repr, [TextBlock(b)]) == [b];
    assert InnerTexts(repr, texts) == [a, b];
    JoinTwo(a, b, " ");
  }

  /** A list of blocks is summarised by the first of the role's own type. */
  lemma {:induction false} FirstTypedIsFirst(blocks: seq<Json>, kind: string, k: nat)
    requires k <= |blocks| && forall i :: 0 <= i < k ==> !HasType(blocks[i], kind)
    ensures k == |blocks| ==> FirstTyped(blocks, kind) == Str("")
    ensures k < |blocks| && HasType(blocks[k], kind) && Get(blocks[k], "text").Some? ==>
      FirstTyped(blocks, kind) == Get(blocks[k], "text").value
  {
    if k > 0 {
      FirstTypedIsFirst(blocks[1..], kind, k - 1);
    }
  }

  lemma OpenAiListSummary(repr: Repr, m: Json, blocks: seq<Json>, k: nat, text: string)
    requires Get(m, "type").None? && (HasRole(m, "user") || HasRole(m, "assistant"))
    requires Get(m, "content") == Some(Arr(blocks)) && k < |blocks|
    requires var kind := if HasRole(m, "user") then "text" else "output_text";
      && HasType(blocks[k], kind) && Get(blocks[k], "text") == Some(Str(text))
      && forall i :: 0 <= i < k ==> !HasType(blocks[i], kind)
    ensures OpenAiSummary(repr, m) == TruncateSummary(text)
  {
    assert "user"[0] != "assistant"[0];
    FirstTypedIsFirst(blocks, if HasRole(m, "user") then "text" else "output_text", k);
  }
}
