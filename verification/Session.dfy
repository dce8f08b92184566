/** One chat turn end to end: `ChatSession.run_command`. */
module Session {
  import opened Results
  import opened JsonValues
  import opened HistoryBudget
  import opened Replay
  import opened World
  import opened Rounds
  import opened Handlers
  import opened Gate
  import opened Metadata
  import opened Store
  import OpenAiConnection
  import BedrockConnection

  type Count = n: nat | n >= 1 witness 1

  /** The host's replay of a conversation; it may read the store, and it may raise. */
  type Replayer = (StoreState, string, nat) -> Outcome<seq<ReplayEntry>>

  /** What a session is built with. */
  datatype Config = Config(
    connection: Connection,
    host: Host,
    scrub: Scrubber,
    repr: Repr,
    maxHistory: Count,
    maxTokens: Option<int>,
    maxToolCallRounds: Option<int>,
    replayer: Option<Replayer>,
    faults: Faults)
  {
    /** The round cap of a turn: `None` leaves it to the connections' own default. */
    function Cap(): nat {
      if maxToolCallRounds.None? then DEFAULT_MAX_TOOL_CALL_ROUNDS
      else if maxToolCallRounds.value < 0 then 0
      else maxToolCallRounds.value
    }
  }

  /** The handler registered for a conversation's kind. */
  function KindNamed(kind: string): Option<Kind> {
    if kind == "main_chat_openai" then Some(OpenAiKind)
    else if kind == "main_chat_bedrock" then Some(BedrockKind)
    else None
  }

  // ---- the specification of a turn -------------------------------------------

  function ProjectEntries(entries: seq<ReplayEntry>): seq<Json> {
    if entries == [] then []
    else
      var first := ProjectEntry(entries[0]);
      (if first.Some? then [first.value] else []) + ProjectEntries(entries[1..])
  }

  /** Stored rows as input messages, side-cars taken off. */
  function StripRows(rows: seq<Row>): seq<Json> {
    if rows == [] then [] else [StoredToInputMessage(StripPersistenceKeys(rows[0].meta))] + StripRows(rows[1..])
  }

  /** `_build_historical_context`: the replay if it works, the stored rows otherwise. */
  function BuildHistoricalContext(cfg: Config, s: StoreState, hash: string, id: int): (StoreState, Outcome<seq<Json>>) {
    var replayed := if cfg.replayer.None? then Raised else cfg.replayer.value(s, hash, cfg.maxHistory);
    if replayed.Ok? then (s, Ok(ProjectEntries(replayed.value))) else
    var rows := Recent(cfg.faults, s, id, cfg.maxHistory);
    (Tick(s), if rows.Raised? then Raised else Ok(StripRows(rows.value)))
  }

  function PromptRow(cfg: Config, kind: Kind, prompt: Json): Row {
    Row(SenderUser, SummarizeForStorage(kind, cfg.repr, prompt), prompt)
  }

  /** A turn up to the model call. */
  datatype Prepared = Prepared(id: int, kind: Kind, prompt: Json, bounded: seq<Json>, sent: seq<Json>)

  function Prepare(cfg: Config, s: StoreState, hash: string, command: string): (StoreState, Outcome<Prepared>) {
    var found := Find(cfg.faults, s, hash);
    if found.Raised? || found.value.None? || KindNamed(found.value.value.kind).None? then (Tick(s), Raised) else
    var (id, kind) := (found.value.value.id, KindNamed(found.value.value.kind).value);
    var (s1, history) := BuildHistoricalContext(cfg, Tick(s), hash, id);
    if history.Raised? then (s1, Raised) else
    var prompt := BuildUserPrompt(kind, command);
    var (s2, stored) := Append(cfg.faults, s1, id, PromptRow(cfg, kind, prompt));
    if stored.Raised? then (s2, Raised) else
    var bounded := Truncated(history.value + [prompt], cfg.maxTokens);
    var sent := ScrubHistory(cfg.scrub, bounded);
    (s2, if sent.Raised? then Raised else Ok(Prepared(id, kind, prompt, bounded, sent.value)))
  }

  function MessageRow(cfg: Config, kind: Kind, message: Json, meta: Json): Row {
    Row(SenderFor(kind, message), SummarizeForStorage(kind, cfg.repr, message), meta)
  }

  /** The write loop over the new messages; the first failure ends it. */
  function PersistNew(cfg: Config, kind: Kind, s: StoreState, id: int, messages: seq<Json>, w: World):
    (StoreState, Outcome<()>)
    decreases |messages|
  {
    if messages == [] then (s, Ok(())) else
    var meta := WithToolMetadata(messages[0], w.refs, w.payload);
    if meta.Raised? then (s, Raised) else
    var (s1, stored) := Append(cfg.faults, s, id, MessageRow(cfg, kind, messages[0], meta.value));
    if stored.Raised? then (s1, Raised) else PersistNew(cfg, kind, s1, id, messages[1..], w)
  }

  datatype TurnResult = TurnResult(reply: Outcome<string>, store: StoreState, world: World)

  /** A turn from the model call on. */
  function Finish(cfg: Config, s: StoreState, w: World, p: Prepared): TurnResult {
    var loop := ChatWithTools(cfg.connection, cfg.host, p.sent, cfg.Cap(), StartTurn(w));
    if loop.response.Raised? then TurnResult(Raised, s, loop.world) else
    var (s1, stored) := PersistNew(cfg, p.kind, s, p.id, NewMessages(p.sent, loop.messages), loop.world);
    TurnResult(
      if stored.Raised? then Raised else Ok(ExtractResponseText(p.kind, loop.response.value)), s1, loop.world)
  }

  /** `run_command` from the stored tables and the world so far. */
  function RunTurn(cfg: Config, s: StoreState, w: World, hash: string, command: string): TurnResult {
    var (s1, prepared) := Prepare(cfg, s, hash, command);
    if prepared.Raised? then TurnResult(Raised, s1, w) else Finish(cfg, s1, w, prepared.value)
  }

  datatype Command = Command(hash: string, text: string)

  datatype RunResult = RunResult(replies: seq<Outcome<string>>, store: StoreState, world: World)

  /** A whole run: any commands, in any order over any conversations. */
  function Run(cfg: Config, s: StoreState, w: World, commands: seq<Command>): RunResult
    decreases |commands|
  {
    if commands == [] then RunResult([], s, w) else
    var turn := RunTurn(cfg, s, w, commands[0].hash, commands[0].text);
    var rest := Run(cfg, turn.store, turn.world, commands[1..]);
    RunResult([turn.reply] + rest.replies, rest.store, rest.world)
  }

  // ---- the session object -------------------------------------------------------

  class ChatSession {
    const cfg: Config
    const store: HistoryStore
    var world: World

    constructor (cfg: Config, store: HistoryStore, world: World)
      ensures this.cfg == cfg && this.store == store && this.world == world
    {
      this.cfg := cfg;
      this.store := store;
      this.world := world;
    }

    method BuildHistory(hash: string, id: int) returns (history: Outcome<seq<Json>>)
      requires store.faults == cfg.faults
      modifies store
      ensures (store.State(), history) == BuildHistoricalContext(cfg, old(store.State()), hash, id)
    {
      if cfg.replayer.Some? {
        var replayed := cfg.replayer.value(store.State(), hash, cfg.maxHistory);
        if replayed.Ok? {
          var entries := replayed.value;
          var messages: seq<Json> := [];
          var i := 0;
          assert entries[0..] == entries && [] + ProjectEntries(entries) == ProjectEntries(entries);
          while i < |entries|
            invariant 0 <= i <= |entries|
            invariant ProjectEntries(entries) == messages + ProjectEntries(entries[i..])
          {
            var projected := ProjectEntry(entries[i]);
            assert entries[i..][1..] == entries[i + 1..];
            if projected.Some? {
              messages := messages + [projected.value];
            }
            i := i + 1;
          }
          assert messages + [] == messages;
          return Ok(messages);
        }
      }
      var rows := store.ListRecentMessages(id, cfg.maxHistory);
      return if rows.Raised? then Raised else Ok(StripRows(rows.value));
    }

    /** The tool loop of whichever connection the factory yields. */
    method Converse(input: PyList, turn: Turn) returns (response: Outcome<Option<Response>>, finalMessages: PyList)
      modifies input, turn
      ensures LoopResult(response, finalMessages.items, turn.world)
        == Rounds.ChatWithTools(cfg.connection, turn.host, old(input.items), cfg.Cap(), old(turn.world))
    {
      match cfg.connection {
        case OpenAi(create) =>
          var connection := new OpenAiConnection.OpenAiConnection(create);
          response, finalMessages := connection.ChatWithTools(input, turn, cfg.Cap());
        case Bedrock(converse) =>
          var connection := new BedrockConnection.BedrockConnection(converse);
          response, finalMessages := connection.ChatWithTools(input, turn, cfg.Cap());
      }
    }

    method Persist(kind: Kind, id: int, messages: seq<Json>, w: World) returns (done: Outcome<()>)
      requires store.faults == cfg.faults
      modifies store
      ensures (store.State(), done) == PersistNew(cfg, kind, old(store.State()), id, messages, w)
    {
      var i := 0;
      assert messages[0..] == messages;
      while i < |messages|
        invariant 0 <= i <= |messages|
        invariant PersistNew(cfg, kind, old(store.State()), id, messages, w)
          == PersistNew(cfg, kind, store.State(), id, messages[i..], w)
      {
        var message := messages[i];
        assert messages[i..][1..] == messages[i + 1..];
        var metaData := MetaDataWithToolMetadata(message, w.refs, w.payload);
        if metaData.Raised? {
          return Raised;
        }
        done := store.AppendMessage(
          id, SenderFor(kind, message), SummarizeForStorage(kind, cfg.repr, message), metaData.value);
        if done.Raised? {
          return;
        }
        i := i + 1;
      }
      return Ok(());
    }

    method RunCommand(hash: string, command: string) returns (reply: Outcome<string>)
      requires store.faults == cfg.faults
      modifies this, store
      ensures TurnResult(reply, store.State(), world)
        == RunTurn(cfg, old(store.State()), old(world), hash, command)
    {
      var found := store.ConversationByHash(hash);
      if found.Raised? || found.value.None? {
        return Raised;
      }
      var conversation := found.value.value;
      var handler := KindNamed(conversation.kind);
      if handler.None? {
        return Raised;
      }
      var kind := handler.value;
      var history := BuildHistory(hash, conversation.id);
      if history.Raised? {
        return Raised;
      }
      var inputMessages := new PyList(history.value);
      var userPrompt := BuildUserPrompt(kind, command);
      inputMessages.Append(userPrompt);
      var stored := store.AppendMessage(
        conversation.id, SenderUser, SummarizeForStorage(kind, cfg.repr, userPrompt), userPrompt);
      if stored.Raised? {
        return Raised;
      }
      var bounded := TruncateToTokenBudget(inputMessages.items, cfg.maxTokens);
      var scrubbed := ScrubHistory(cfg.scrub, bounded);
      if scrubbed.Raised? {
        return Raised;
      }
      var scrubbedForLlm := new PyList(scrubbed.value);
      // A second list object: the first may be the one that grows.
      var sentToConnection := new PyList(scrubbedForLlm.items);
      var turn := new Turn(cfg.host, world);
      var response, finalMessages := Converse(scrubbedForLlm, turn);
      world := turn.world;
      if response.Raised? {
        return Raised;
      }
      var newMessages := NewMessages(sentToConnection.items, finalMessages.items);
      stored := Persist(kind, conversation.id, newMessages, turn.world);
      if stored.Raised? {
        return Raised;
      }
      return Ok(ExtractResponseText(kind, response.value));
    }
  }
}
