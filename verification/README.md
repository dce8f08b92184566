# The chat-turn engine of llm-core-lib, modelled and proved in Dafny

The model covers everything between `ChatSession.run_command(hash_id, prompt)` and the rows left in
the history store: the history projection, the token budget, the scrub, the two tool-call loops, the
metadata capture, the persisted rows and the safety gate the host's tools go through.

## How it is built

- **Values.** Messages, tool results and rows are JSON values (`JsonValues`); a Python dict is an
  insertion-ordered list of fields. `JsonText` is the printer and reader of Python's `json` module
  (sections 4, 5 and 7 of RFC 8259), in both `ensure_ascii` modes.
- **The outside.** The provider, the host's tools, the metadata hook, the replay and the store's
  failures are arbitrary policies of the requests and calls made so far (`World`), so every statement
  holds for every script and every stateful service. The theorems that compare the two providers are
  about any policy that makes at most one call per round; it sees every conversation it was sent
  (`Simulation.Policy`). The PII scrub is an arbitrary function of one message that may raise; on a list
  it works member by member, which is all that is assumed of it except where a theorem says that it keeps
  correlation ids, or does the same to both wire formats.
- **Imperative parts.** Python lists are heap objects (`World.PyList`), so the OpenAI loop grows the
  caller's list, the Bedrock loop grows a copy, and `ChatSession.RunCommand` slices by a separate
  snapshot. Each method is proved equal to a function of the old state; the theorems are about those
  functions (`Rounds.Loop`, `Session.RunTurn`, `Session.Run`) and so about every run.
- **Whole runs.** `Session.Run` is any sequence of commands over any conversations.

Main results, by file:

- `Refinement`: a store-backed session and a plain in-memory transcript send, call and return the same.
- `SessionSimulation`: one policy that reads what it is sent, behind either provider: the same replies,
  calls, conversations in every request, and logs.
- `Runs`, `Words`: what every request and every log of a run looks like.
- `GatedRuns`: a log holds of a tool's result what the gate makes of it. `Confinement`: a corollary of
  what the gate does with one refused result.
- `Extraction`: exactly when metadata extraction leaves a turn alone.
- `Crash`: what any failure leaves behind. `Window`: which part of a conversation is sent.
- `Capture`, `Conservation`, `Outputs`, `Pairing`, `Gate`, `Simulation`: what holds over one tool loop.
- `History`: what a turn remembers. `Replay`, `HistoryBudget`, `ToolData`, `JsonText`, `JsonSpacing`: what the
  texts and the budget guarantee.

## Where the code and its comments part

- `llm_core_lib/chat/chat_session.py:258` promises that metadata extraction never breaks a turn. It can, in
  two ways. While the tools run: `.get`, `extend` and `update` are called outside the `try`, so an answer that
  is truthy and not a dict, truthy `refs` that cannot be iterated, or a truthy payload that is neither a dict
  nor a list of pairs raises (`Fragments.Usable`). When the rows are written: a captured reference that
  cannot be read, or is new and lacks `type` or `id`, raises, and so does a new message that is not a dict.
  `Extraction.TurnSurvivesExtraction` proves for every turn, on any store and with any provider, that it is
  side-cars aside the turn without the extractor if none of this happens, and raises otherwise.
  `Extraction.ExtractionCanBreakATurn` is one session where the condition is that of a single answer;
  `Extraction.UnusableAnswers` and `Extraction.IncompleteReferenceBreaksATurn` are answers that break it.
- `README.md:470-476` says the 1200-character cap keeps replay from inflating the context. The payload is
  escaped a second time when the message is serialised, so the cap is one of 608 estimated tokens on a turn
  with text and of 616 on a payload-only turn, not 300 (`Replay.ReplayedPayloadCost`). Both are reached
  exactly (`Replay.PayloadCostIsReached`).
- `llm_core_lib/chat/history_budget.py:34` says messages are dropped until the list fits. The kept list
  fits exactly when its last message does (`HistoryBudget.BudgetBoundsChars`).

## Model

| member | source | states |
|---|---|---|
| JsonText.RoundTrip | llm_core_lib/connections/openai_connection.py:70 | reading a printed value gives the value back, for every value and in both escaping modes |
| JsonText.DumpsPrintable | llm_core_lib/connections/openai_connection.py:70 | a tool result prints as printable ASCII only, so it has no line break |
| JsonText.EscapeForms | llm_core_lib/connections/openai_connection.py:70 | printable ASCII prints as itself but for quote and backslash, five control characters have a letter, everything else is a lower-case `\u` escape or, without `ensure_ascii`, itself |
| JsonText.ContainersAreJoined | llm_core_lib/connections/openai_connection.py:70 | items are joined by a comma and a space, members written key, colon, space, value |
| JsonSpacing.SpacedReads | llm_core_lib/connections/openai_connection.py:222-226 | a value reads the same however its text is spaced, inside and around, so compact texts do too |
| JsonSpacing.TrailingTextIsRefused | llm_core_lib/connections/openai_connection.py:222-226 | a value followed by more than white space is no JSON |
| JsonSpacing.RepeatedKeysRead | llm_core_lib/connections/openai_connection.py:222-226 | of a key written twice the last value counts |
| ToolData.FrameHoldsItsContents | llm_core_lib/connections/openai_connection.py:48-71 | whatever the result contains, the frame has three lines, only the outer two are marks, and the middle one reads back as the result |
| ToolData.FrameIsInjective | llm_core_lib/connections/openai_connection.py:70-71 | two results with the same framed text are equal |
| HistoryBudget.TruncateToTokenBudget | llm_core_lib/chat/history_budget.py:31-53 | the reverse loop keeps the longest suffix that fits, or the last message alone |
| HistoryBudget.LongestFittingOptimal | llm_core_lib/chat/history_budget.py:43-53 | the kept suffix fits and no longer suffix does |
| HistoryBudget.TruncateTwice | llm_core_lib/chat/history_budget.py:41-53 | truncating by two budgets in either order is truncating by the smaller; hence idempotent |
| HistoryBudget.TruncateMonotone | llm_core_lib/chat/history_budget.py:41-53 | a larger budget keeps everything a smaller one keeps |
| HistoryBudget.BudgetBoundsChars | llm_core_lib/chat/history_budget.py:19-53 | the kept list is within budget B exactly when the last message is, and then has at most B messages and 7B characters |
| HistoryBudget.EstimateRoundsDown | llm_core_lib/chat/history_budget.py:19-28 | four characters make a token and the rest counts for nothing, but no message is free |
| HistoryBudget.CostRoundsDown | llm_core_lib/chat/history_budget.py:19-28 | a list that costs c has between 4c and 4c + 3 per message characters |
| HistoryBudget.ShortSuffixIsKept | llm_core_lib/chat/history_budget.py:43-53 | a suffix with at most four characters per token of the budget is always kept |
| HistoryBudget.NoBudgetKeepsAll | llm_core_lib/chat/history_budget.py:41-42 | without a positive budget nothing is dropped |
| Replay.ReplayedPayloadCost | llm_core_lib/chat/chat_session.py:344-360 | a payload costs a turn with text at most 608 estimated tokens, and a payload-only turn at most 616 in all |
| Replay.PayloadCostIsReached | llm_core_lib/chat/chat_session.py:344-360 | both bounds are attained: a payload of 600 quotes or more costs exactly 608 tokens after any text and exactly 616 alone |
| Replay.PayloadReadsBack | llm_core_lib/chat/chat_session.py:345-353 | a payload dict within the cap reads back from the replayed text with ascending keys and the same values |
| Replay.SortKeysSorts | llm_core_lib/chat/chat_session.py:346 | sorting orders the keys of every dict inside and changes nothing else |
| Replay.LessIsLexicographic | llm_core_lib/chat/chat_session.py:346 | keys are ordered by their first different character, a proper prefix first |
| History.ReplayedHistory | llm_core_lib/chat/chat_session.py:287-303 | with a replay that works the history is, in order, one message for each entry with something to say, in its role and words with the payload in brackets behind, and none for any other |
| History.StoredHistory | llm_core_lib/chat/chat_session.py:305-313 | without a replay, or when it raises, the history is the last rows of the log, oldest first, each read without its side-cars |
| World.Turn.InvokeTool | llm_core_lib/chat/chat_session.py:254-271 | one captured call: the host is called once; the accumulators grow by what `extend` and `update` take of the answer, whatever its shape; the result is unchanged, or the call raises where `.get`, `extend` or `update` do |
| Fragments.DocumentedIsTaken | llm_core_lib/chat/chat_session.py:263-268 | a documented answer adds all its references in order and writes all its payload |
| Fragments.OtherShapesTaken | llm_core_lib/chat/chat_session.py:263-266 | references in a string are its characters, in a dict its keys |
| Fragments.PairsAreTaken | llm_core_lib/chat/chat_session.py:267-268 | a payload that is a list of pairs writes those pairs |
| Fragments.UsableShapes | llm_core_lib/chat/chat_session.py:256-268 | the answers that can be taken in, shape by shape, and no others |
| Rounds.LoopAppends | llm_core_lib/chat/chat_handler.py:36-46 | both loops only append to the list they enter with |
| Rounds.DiffIsExact | llm_core_lib/chat/openai_chat_handler.py:34-40 | for both connections the positional slice is exactly what the loop appended |
| OpenAiConnection.OpenAiConnection.RunFunctionCall | llm_core_lib/connections/openai_connection.py:213-240 | the call and its output are appended in place after a result, nothing after an exception |
| OpenAiConnection.OpenAiConnection.HandleOutput | llm_core_lib/connections/openai_connection.py:186-206 | only the first call of a reply runs; messages are committed only when there is none |
| OpenAiConnection.OpenAiConnection.ChatWithTools | llm_core_lib/connections/openai_connection.py:149-211 | the loop returns the caller's own list, grown as the round specification says, on every exit |
| BedrockConnection.BedrockConnection.RunToolUses | llm_core_lib/connections/bedrock_connection.py:191-206 | every tool use of a message runs in block order until one raises |
| BedrockConnection.BedrockConnection.ChatWithTools | llm_core_lib/connections/bedrock_connection.py:126-212 | the loop returns a fresh list, grown as the round specification says, and leaves the caller's list as it was |
| Capture.CaptureIsTransparent | llm_core_lib/chat/chat_session.py:249-271 | a loop with a hook has the transcript, response, requests and calls of the loop without one, exactly as long as every answer can be taken in; otherwise it raises |
| Capture.LoopFaithful | llm_core_lib/chat/chat_session.py:254-269 | after any loop the accumulators are the fold of the hook's answers over the calls of the turn |
| Capture.PayloadIsLastWrite | llm_core_lib/chat/chat_session.py:264-268 | the merged payload holds for each key the value of the latest fragment that has it |
| Capture.LoopCapturesAll | llm_core_lib/chat/chat_session.py:254-269 | when every answer is of the documented shape, a loop captures all their references in call order and the latest value of each payload key |
| Runs.SaidRefsReachEveryRow | llm_core_lib/chat/chat_session.py:219-231 | and every row of the turn stores references to exactly the same things |
| Runs.SaidPayloadsReachEveryRow | llm_core_lib/chat/chat_session.py:219-231 | and the latest value of every payload key |
| Metadata.DedupeRefs | llm_core_lib/chat/chat_session.py:408-415 | the `seen` loop computes the de-duplication, raising where the code raises |
| Metadata.DedupeKeepsFirstOccurrences | llm_core_lib/chat/chat_session.py:408-415 | the stored references are, in call order and without repetition, the first reference to every thing, each with its captured `type` and `id` and nothing else |
| Metadata.DedupeKeepsKeys | llm_core_lib/chat/chat_session.py:408-415 | captured and stored references are to the same things |
| Metadata.DedupeGoesThrough | llm_core_lib/chat/chat_session.py:410-415 | de-duplication goes through exactly when every reference is a dict with scalar `type` and `id`, and the first to every thing has both keys |
| Metadata.MetaDataWithToolMetadata | llm_core_lib/chat/chat_session.py:383-419 | the stored row is the message with the two side-cars merged in, or the message itself |
| Metadata.AttachedReads | llm_core_lib/chat/chat_session.py:405-418 | a stored row shows the de-duplicated references and the merged payload, and under a key for which nothing was captured what the message had |
| Metadata.AttachThenStrip | llm_core_lib/chat/chat_session.py:365-380 | stripping an attached row gives the message back exactly when it had neither side-car key |
| Metadata.StripKeepsOtherKeys | llm_core_lib/chat/chat_session.py:377-380 | stripping changes no other key |
| Extraction.TurnSurvivesExtraction | llm_core_lib/chat/chat_session.py:160-271 | on any store, with any provider: if the answers to the calls of a turn can be taken in and the references they add up to can be written, the turn replies, sends, calls and stores, side-cars aside, what it does without the extractor; otherwise it raises |
| Extraction.AttachesExactly | llm_core_lib/chat/chat_session.py:402-419 | the side-cars of a turn can be written to all its messages exactly when there are none, or the references de-duplicate and every message is a dict |
| Extraction.ExtractionCanBreakATurn | llm_core_lib/chat/chat_session.py:256-268 | for a session whose provider calls one tool and stops, a turn returns without the extractor, and with it if and only if its answer can be taken in and its references can be written |
| Extraction.UnusableAnswers | llm_core_lib/chat/chat_session.py:263-268 | three answers that cannot be taken in: a string, `refs` that is a number, a payload fragment that is a string |
| Extraction.IncompleteReferenceBreaksATurn | llm_core_lib/chat/chat_session.py:410-415 | an answer that is taken in and still ends the turn: a reference without an `id` |
| Conservation.FirstCallIsEarliest | llm_core_lib/connections/openai_connection.py:187-194 | a call is chosen exactly when the output holds one, and it is the earliest |
| Conservation.MessageItemsArePicked | llm_core_lib/connections/openai_connection.py:195-199 | the stashed items are all the messages of the output, in order, and nothing else |
| Conservation.OpenAiConservation | llm_core_lib/connections/openai_connection.py:168-240 | for every script: requests within the cap, each holding the input and the items so far; per completed round the earliest call of the answer to that request and its output; then all messages of the terminal reply; the response is the last answer, at the cap too |
| Conservation.BlocksConservation | llm_core_lib/connections/bedrock_connection.py:191-206 | a completed round runs every use once in order with its own arguments and answers each under its own id |
| Conservation.UsesArePicked | llm_core_lib/connections/bedrock_connection.py:192-195 | the uses of a message are all its truthy `toolUse` values, in block order |
| Conservation.BedrockConservation | llm_core_lib/connections/bedrock_connection.py:172-212 | for every script: requests within the cap, each holding the input and the rounds so far; per completed round a message that stopped for tool use and the answers to all its uses, then the final message, which did not; the host calls are those uses in order; the response is the last answer, at the cap too |
| Outputs.LoopOutputs | llm_core_lib/connections/openai_connection.py:232-239 | for any host and provider, every recorded call holds what the host gave for it, and every tool output a loop appends frames the result of one of those calls |
| Outputs.CallOutputReads | llm_core_lib/connections/openai_connection.py:235-239 | an output item has three keys: its type, the id of its call, the framed result |
| Outputs.ResultBlockReads | llm_core_lib/connections/bedrock_connection.py:201-206 | a result block has the id of its use and one text block with the framed result |
| Outputs.FollowUpReads | llm_core_lib/connections/bedrock_connection.py:207 | the results go back in one message of the user |
| Conservation.EnsureAllBlocks | llm_core_lib/connections/bedrock_connection.py:321-338 | any mix of text and block messages becomes block messages |
| Conservation.NormalisedSaysTheSame | llm_core_lib/connections/bedrock_connection.py:321-338 | text content becomes one block that holds the text, every other field stays, any other message is unchanged |
| Conservation.RequestsSayTheSame | llm_core_lib/connections/bedrock_connection.py:170-178 | every request of a loop starts, message by message, with what the caller's list says, and the first is nothing more |
| Conservation.ConverseSeesBlocksOnly | llm_core_lib/connections/bedrock_connection.py:172-207 | every list passed to Converse in every round has block content only |
| Pairing.SuffixPaired | llm_core_lib/chat/history_budget.py:43-53 | cutting a paired list anywhere can orphan only the result that is left first |
| Pairing.LoopPaired | llm_core_lib/connections/openai_connection.py:213-240 | every request of a loop from a paired list is paired, and so is the list returned (Bedrock: if replies carry no results and final ones no calls) |
| Pairing.FinalCallsAreOrphaned | llm_core_lib/connections/bedrock_connection.py:188-190 | a final Bedrock reply leaves the list paired if and only if it makes no calls: those of a reply that does not stop for tool use are never answered |
| Pairing.ChatPaired | llm_core_lib/connections/bedrock_connection.py:172-207 | the messages a turn adds pair among themselves, in both wire formats |
| Handlers.BedrockSummarizeForStorage | llm_core_lib/chat/bedrock_chat_handler.py:39-73 | the block loop computes the summary: texts first, then tool names, then the last result |
| Handlers.SummarizeForStorage | llm_core_lib/chat/chat_handler.py:64-70 | every summary of either handler, of any message, is at most 500 characters |
| Handlers.PromptSummary | llm_core_lib/chat/openai_chat_handler.py:42-63 | both handlers summarise a prompt as what was typed, clipped |
| Handlers.TwoTextsSummary | llm_core_lib/chat/bedrock_chat_handler.py:48-65 | texts are summarised one after the other |
| Handlers.TwoUsesSummary | llm_core_lib/chat/bedrock_chat_handler.py:48-68 | calls without text are summarised by their names |
| Handlers.LastResultSummary | llm_core_lib/chat/bedrock_chat_handler.py:56-70 | of several results the last is summarised, its texts one after the other |
| Handlers.OpenAiListSummary | llm_core_lib/chat/openai_chat_handler.py:49-63 | a list of blocks is summarised by the first text of the role's own type |
| Handlers.OtherSummaries | llm_core_lib/chat/bedrock_chat_handler.py:39-73 | a message without blocks is summarised by its role, one of unknown shape by its JSON |
| Handlers.OpenAiTextIsFirst | llm_core_lib/chat/openai_chat_handler.py:68-80 | OpenAI shows the first block of the first message that has any |
| Handlers.BedrockTextIsFirst | llm_core_lib/chat/bedrock_chat_handler.py:75-82 | Bedrock shows the first text that is not empty |
| Gate.ScrubHistoryShape | llm_core_lib/safety/payload_gate.py:176-208 | the history scrub keeps order, length and the last message, and maps every other message by itself |
| Gate.ProjectResult | llm_core_lib/safety/payload_gate.py:77-93 | the projection loop is all or nothing |
| Gate.GateIsExact | llm_core_lib/safety/payload_gate.py:77-128 | a payload passes exactly when it is the scrub of nothing, of one dumped `RefLLMView`, or of a list of nothing else |
| Gate.EnvelopeReads | llm_core_lib/safety/payload_gate.py:238-244 | the envelope has a fixed status, a fixed detail and a reference, and nothing else |
| Gate.RunToolReturns | llm_core_lib/safety/payload_gate.py:268-299 | `run_tool` raises only on an interrupt; otherwise it returns the payload the gate makes of this very tool result, or if it is refused the envelope of a fresh reference, and nothing else |
| Gate.OtherShapesAreRefused | llm_core_lib/safety/payload_gate.py:77-93 | any value that is not nothing, a `RefLLMView` or a list of these is refused whatever it holds |
| Gate.GatedLoop | llm_core_lib/safety/payload_gate.py:268-299 | with gated tools and any hook, every call of a loop shows what the gate makes of that call's own tool outcome, and every tool output in the transcript frames such a call |
| Gate.GatedChat | llm_core_lib/chat/chat_session.py:203-213 | if no tool is interrupted and every hook answer can be taken in, `chat_with_tools` lacks a response only because the provider raised |
| Simulation.ArgumentsTravel | llm_core_lib/connections/openai_connection.py:222-232 | arguments sent as JSON text reach the host as the same dict |
| Simulation.SpacedArgumentsTravel | llm_core_lib/connections/openai_connection.py:222-232 | any value does, however its text is spaced |
| Simulation.OtherArguments | llm_core_lib/connections/openai_connection.py:222-232 | a dict is taken as it is; no text, text that is no JSON and anything else make no arguments |
| Simulation.ReadAllRendered | llm_core_lib/connections/openai_connection.py:213-240 | a conversation rendered in either wire format reads back as itself, up to the text beside a call, which OpenAI does not keep |
| Simulation.CrossProviderSimulation | llm_core_lib/connections/bedrock_connection.py:172-212 | one policy that reads everything it is sent, encoded for either provider, makes the same calls, gets the same results and leaves transcripts that render one conversation, round cap included |
| Simulation.SameSenders | llm_core_lib/chat/bedrock_chat_handler.py:84-95 | both handlers file an entry under the same sender |
| Simulation.SameSummaries | llm_core_lib/chat/bedrock_chat_handler.py:39-73 | both handlers summarise results and final texts in the same words |
| Simulation.CalledSummaries | llm_core_lib/chat/openai_chat_handler.py:42-47 | OpenAI summarises a call by name and arguments, Bedrock by the text beside it or its name |
| Simulation.SameResponseText | llm_core_lib/chat/openai_chat_handler.py:68-80 | both handlers return the text of the final move |
| Store.HistoryStore.ConversationByHash | llm_core_lib/chat/chat_history_store.py:34-38 | the conversation of the hash, or `None`, or a failure that changes nothing |
| Store.HistoryStore.ListRecentMessages | llm_core_lib/chat/chat_history_store.py:40-44 | the last rows, oldest first, or a failure that changes nothing |
| Store.HistoryStore.AppendMessage | llm_core_lib/chat/chat_history_store.py:46-53 | one log grows by one row, or a failure that changes nothing |
| Session.ChatSession.BuildHistory | llm_core_lib/chat/chat_session.py:273-313 | the projected replay, or the stripped rows when there is none or it raises |
| Session.ChatSession.Persist | llm_core_lib/chat/chat_session.py:219-231 | the write loop stores row after row until the first failure |
| Session.ChatSession.RunCommand | llm_core_lib/chat/chat_session.py:147-233 | the object's reply, store and world after a turn are those of the turn specification, whichever list the loop grew |
| Crash.CrashConsistency | llm_core_lib/chat/chat_session.py:160-233 | any failure leaves the old log plus a prefix of the rows of the failure-free turn, with the prompt once the provider is reached, and no other log changed |
| Crash.SurvivingFaultsChangesNothing | llm_core_lib/chat/chat_session.py:160-233 | a turn that returns on a failing store is the turn on a store that never fails |
| Window.CombinedWindow | llm_core_lib/chat/chat_session.py:166-189 | the list sent is the longest suffix of the conversation within both the count window and the budget, scrubbed message by message |
| Refinement.TurnRefines | llm_core_lib/chat/chat_session.py:160-233 | one turn replies as the transcript reference and keeps every stripped log equal to its transcript (no replayer, no store failure, provider items without side-car keys, and harmless answers to the calls this turn makes) |
| Refinement.SessionRefinesTranscript | llm_core_lib/chat/chat_session.py:160-233 | under the same conditions, over every run the session sends, calls and returns what the reference does, and every stripped log is the transcript |
| Runs.TurnMetadataIsTheFold | llm_core_lib/chat/chat_session.py:219-231 | every row after the prompt carries the one fold of the turn's captured metadata, and its own message's values where nothing was captured |
| Runs.NewRowsAre | llm_core_lib/chat/chat_session.py:219-231 | the rows after the prompt are, one per new message and in order, its sender, its summary and the message with its side-cars |
| Runs.PromptRowReads | llm_core_lib/chat/chat_session.py:147-184 | a turn first stores the prompt in its provider's shape, filed under the user and summarised as typed; an unknown hash or kind ends it at once |
| Runs.RequestsWithinCap | llm_core_lib/chat/chat_session.py:203-213 | a turn sends at most its cap of requests, a hundred if none is set, none if it is negative |
| Runs.TurnPaired | llm_core_lib/chat/chat_session.py:166-231 | whatever fails, every request of a turn from whole logs is paired; the logs stay whole if and only if the last row the turn stored is not a call, which holds if no write after the model call fails |
| Runs.RunKeepsPairing | llm_core_lib/chat/chat_session.py:166-213 | in every list sent on any turn of any run each call is followed at once by its result, and only the first message can be an orphaned result (no write after a model call fails, the scrub keeps correlation ids, Bedrock replies as for the loop) |
| Words.LoopSpeaks | llm_core_lib/connections/openai_connection.py:170-211 | a loop appends pairs of tool messages, at most the cap, then assistant messages |
| Words.RunIsOrderly | llm_core_lib/chat/chat_session.py:175-231 | after any run every log is a concatenation of turns USER (TOOL TOOL)^r ASSISTANT* with r within the cap, failed model calls included, and summaries that fit; on a store that fails anywhere, of starts of such words (final items are the assistant's, Bedrock stops for tool use exactly when it uses one) |
| SessionSimulation.ProvidersAreInterchangeable | llm_core_lib/chat/chat_session.py:160-233 | over every run, an OpenAI and a Bedrock session with one policy that reads all it is sent return the same replies, make the same host calls, send renderings of the same conversation in every request and keep logs that say the same under the same senders (equal count windows, no replayer, stores failing alike, scrubs that do the same to both formats, budgets that keep as many messages on each turn) |
| SessionSimulation.SameRequestMeansSameCut | llm_core_lib/chat/history_budget.py:31-53 | the condition on the budgets is exact: two turns that reach the model send one conversation if and only if their budgets keep as many messages |
| SessionSimulation.WithinBudgets | llm_core_lib/chat/history_budget.py:41-53 | it is met, and the sessions interchangeable, as long as the window and prompt of every turn are within both budgets |
| SessionSimulation.WithoutBudgets | llm_core_lib/chat/history_budget.py:41-53 | with the budgets off this holds of every run |
| SessionSimulation.SameBudgetCutsApart | llm_core_lib/chat/history_budget.py:41-53 | with one budget on both sides it can fail: the same two prompts are both kept for OpenAI and cut to one for Bedrock |
| GatedRuns.RunLogsOnlyWhatCrossed | llm_core_lib/safety/payload_gate.py:268-299 | on any store and with any hook, every call of a run shows what the gate makes of that call's own tool outcome, and every tool output the run stores frames one of these calls |
| GatedRuns.UngatedResultsLogEnvelopes | llm_core_lib/safety/payload_gate.py:77-93 | if the tools never return a shape the gate allows, every tool output a run stores is the envelope of one of its calls |
| Confinement.RefusedResultsLeaveNoTrace | llm_core_lib/safety/payload_gate.py:238-299 | replacing what tools return or raise where the gate refuses it changes nothing in any run: replies, requests, calls, metadata and rows |

## Left out

- EstimateTokens: does not model the flat cost of 8 for a message `json.dumps` refuses; every value of the model is serialisable.
- ReadValue: does not read fractions, exponents, `NaN` or lone surrogates, which the values of the model cannot hold.
- SummarizeForStorage: `str()` of a value that is not a string is a parameter, because Python's `repr` is not part of the repository.
- ExtractResponseText: a non-string text field reads as the empty text.
- KeyFrom: a number, boolean or `None` as the key of a payload pair becomes the text `json` writes for it; a dict of the model has string keys only.
- RunFunctionCall: arguments with a fraction, an exponent, `NaN` or a lone surrogate read as no arguments, where Python would parse them (see ReadValue).
- GetOrNull: a missing SDK attribute, and `.get` on a message or block that is not a dict, read as an absent key rather than as Python's attribute error.
- ProjectEntry: a replayed text is a string; Python would format anything else into one.
- Recent: a window of zero or fewer messages, which each store may read its own way.
- ProvidersAreInterchangeable: moves of at most one call per round, since the OpenAI loop runs only the first call of a reply; a replayer is not covered, and the text beside a call is kept by Bedrock alone, so a policy is shown conversations without it.
- SameSenders: relates moves of at most one call per round, since the OpenAI loop runs only the first call of a reply.
- The budget is enforced before the scrub, and the scrub may lengthen a message: no bound is claimed on the scrubbed list.
- Creating, listing, renaming and deleting conversations: pass-through to the store.
- SDK clients, factories, configuration, one-shot completion, vision and embedding calls: field mapping around foreign calls.
- `pii_core_lib` and the audit-only scans: not part of this repository; the scrub is an arbitrary function.
- Logging, tool schemas and instructions, connection-factory failures and the kinds of exceptions beyond raised or not.
