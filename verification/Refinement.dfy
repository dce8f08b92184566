/** A store-backed session and a plain in-memory transcript send and return the same. */
module Refinement {
  import opened Results
  import opened JsonValues
  import opened HistoryBudget
  import opened World
  import opened Rounds
  import opened Handlers
  import opened Gate
  import opened Capture
  import opened Metadata
  import opened Store
  import opened Session
  import opened Crash
  import opened Extraction
  import opened Conservation
  import opened Window

  /** The reference: one list of messages per conversation, no rows, no side-cars, no hook. */
  datatype Reference = Reference(transcripts: map<int, seq<Json>>, world: World)

  function Transcript(ref: Reference, id: int): seq<Json> {
    if id in ref.transcripts then ref.transcripts[id] else []
  }

  function Extend(ref: Reference, id: int, messages: seq<Json>, w: World): Reference {
    Reference(ref.transcripts[id := Transcript(ref, id) + messages], w)
  }

  function ReferenceTurn(
    cfg: Config, conversations: map<string, Conversation>, ref: Reference, hash: string, command: string)
    : (Outcome<string>, Reference)
  {
    if hash !in conversations || KindNamed(conversations[hash].kind).None? then (Raised, ref) else
    var (id, kind) := (conversations[hash].id, KindNamed(conversations[hash].kind).value);
    var prompt := BuildUserPrompt(kind, command);
    var history := LastN(Transcript(ref, id), cfg.maxHistory);
    var sent := ScrubHistory(cfg.scrub, Truncated(history + [prompt], cfg.maxTokens));
    if sent.Raised? then (Raised, Extend(ref, id, [prompt], ref.world)) else
    var loop := ChatWithTools(cfg.connection, Bare(cfg.host), sent.value, cfg.Cap(), ref.world);
    if loop.response.Raised? then (Raised, Extend(ref, id, [prompt], loop.world)) else
    (Ok(ExtractResponseText(kind, loop.response.value)),
     Extend(ref, id, [prompt] + NewMessages(sent.value, loop.messages), loop.world))
  }

  function ReferenceRun(
    cfg: Config, conversations: map<string, Conversation>, ref: Reference, commands: seq<Command>)
    : (seq<Outcome<string>>, Reference)
    decreases |commands|
  {
    if commands == [] then ([], ref) else
    var (reply, next) := ReferenceTurn(cfg, conversations, ref, commands[0].hash, commands[0].text);
    var (replies, last) := ReferenceRun(cfg, conversations, next, commands[1..]);
    ([reply] + replies, last)
  }

  // ---- what is asked of the host and the provider -------------------------------

  predicate StorableMessage(m: Json) {
    m.Obj? && Clean(m)
  }

  /** The provider's items are dicts without the two side-car keys. */
  ghost predicate CleanReplies(conn: Connection) {
    match conn
    case OpenAi(create) => forall asked, calls :: create(asked, calls).Ok? ==>
      forall i :: 0 <= i < |create(asked, calls).value.output| ==> StorableMessage(create(asked, calls).value.output[i])
    case Bedrock(converse) => forall asked, calls :: converse(asked, calls).Ok? ==>
      StorableMessage(converse(asked, calls).value.message)
  }

  // ---- the new messages of a turn are clean --------------------------------------------

  lemma BuiltMessagesAreClean(item: Json, result: Json, results: seq<Json>)
    ensures StorableMessage(CallOutput(item, result)) && StorableMessage(FollowUp(results))
  {
    var (f, g) := (CallOutput(item, result).fields, FollowUp(results).fields);
    assert f[1..] == [f[1], f[2]];
    assert "type"[0] != "refs"[0] && |"call_id"| != |"refs"| && |"output"| != |"refs"| && "role"[1] != "refs"[1];
    assert |"content"| != |"refs"| && |"type"| != |"llm_payload"| && |"call_id"| != |"llm_payload"|;
    assert |"output"| != |"llm_payload"| && |"role"| != |"llm_payload"| && |"content"| != |"llm_payload"|;
    assert "role"[2] != "refs"[2];
    LookupPair(f[1], f[2], META_KEY_REFS);
    LookupPair(f[1], f[2], META_KEY_LLM_PAYLOAD);
    LookupPair(g[0], g[1], META_KEY_REFS);
    LookupPair(g[0], g[1], META_KEY_LLM_PAYLOAD);
  }

  lemma PromptIsClean(kind: Kind, command: string)
    ensures StorableMessage(BuildUserPrompt(kind, command))
  {
    var g := BuildUserPrompt(kind, command).fields;
    assert "role"[2] != "refs"[2] && |"content"| != |"refs"|;
    assert |"role"| != |"llm_payload"| && |"content"| != |"llm_payload"|;
    LookupPair(g[0], g[1], META_KEY_REFS);
    LookupPair(g[0], g[1], META_KEY_LLM_PAYLOAD);
  }

  lemma {:induction false} MessageItemsAmong(output: seq<Json>)
    ensures forall m :: m in MessageItems(output) ==> m in output
  {
    if output != [] {
      MessageItemsAmong(output[1..]);
    }
  }

  lemma RoundIsClean(conn: Connection, host: Host, messages: seq<Json>, w: World)
    requires CleanReplies(conn)
    ensures var round := RunRound(conn, host, messages, w);
      forall m :: m in round.added ==> StorableMessage(m)
  {
    var w1 := Ask(w, messages);
    match conn
    case OpenAi(create) =>
      var answer := create(w1.asked, w1.calls);
      if answer.Ok? {
        var output := answer.value.output;
        assert forall m :: m in output ==> StorableMessage(m);
        MessageItemsAmong(output);
        FirstCallIsACall(output);
        if FirstCall(output).Some? {
          var (w2, result) := InvokeItem(host, FirstCall(output).value, w1);
          if result.Ok? { BuiltMessagesAreClean(FirstCall(output).value, result.value, []); }
        }
      }
    case Bedrock(converse) =>
      var answer := converse(w1.asked, w1.calls);
      if answer.Ok? {
        var results := RunBlocks(host, Blocks(answer.value.message), w1).1;
        if results.Ok? { BuiltMessagesAreClean(Null, Null, results.value); }
      }
  }

  lemma {:induction false} LoopIsClean(
    conn: Connection, host: Host, messages: seq<Json>, rounds: nat, last: Option<Response>, w: World)
    requires CleanReplies(conn)
    ensures var r := Loop(conn, host, messages, rounds, last, w);
      && messages <= r.messages
      && forall i :: |messages| <= i < |r.messages| ==> StorableMessage(r.messages[i])
    decreases rounds
  {
    if rounds > 0 {
      RoundIsClean(conn, host, messages, w);
      var round := RunRound(conn, host, messages, w);
      if round.More? {
        LoopIsClean(conn, host, messages + round.added, rounds - 1, Some(round.reply), round.world);
      }
    }
  }

  // ---- rows and transcript ------------------------------------------------------------------

  lemma {:induction false} StoredRowsStrip(cfg: Config, kind: Kind, messages: seq<Json>, w: World)
    requires forall i :: 0 <= i < |messages| ==> WithToolMetadata(messages[i], w.refs, w.payload).Ok?
    requires forall i :: 0 <= i < |messages| ==> StorableMessage(messages[i])
    ensures |NewRows(cfg, kind, messages, w)| == |messages|
    ensures StripRows(NewRows(cfg, kind, messages, w)) == messages
  {
    if messages != [] {
      StoredRowsStrip(cfg, kind, messages[1..], w);
      AttachThenStrip(messages[0], w.refs, w.payload);
      var row := MessageRow(cfg, kind, messages[0], WithToolMetadata(messages[0], w.refs, w.payload).value);
      assert ([row] + NewRows(cfg, kind, messages[1..], w))[1..] == NewRows(cfg, kind, messages[1..], w);
    }
  }

  /** Stripped of its side-cars, every log is the reference's transcript. */
  ghost predicate Matches(s: StoreState, w: World, ref: Reference) {
    && SameOutside(w, ref.world)
    && forall id :: StripRows(Log(s, id)) == Transcript(ref, id)
  }

  ghost predicate Refinable(cfg: Config) {
    cfg.replayer.None? && NeverFails(cfg) && CleanReplies(cfg.connection)
  }

  lemma GrownMatches(
    s: StoreState, t: StoreState, id: int, rows: seq<Row>, messages: seq<Json>, w: World, w1: World,
    r: World, ref: Reference)
    requires Matches(s, w, ref) && Grew(s, t, id, rows) && StripRows(rows) == messages && SameOutside(w1, r)
    ensures Matches(t, w1, Extend(ref, id, messages, r))
  {
    var next := Extend(ref, id, messages, r);
    StripRowsSplits(Log(s, id), rows);
    forall other ensures StripRows(Log(t, other)) == Transcript(next, other) {
      if other != id {
        assert Log(t, other) == Log(s, other) && Transcript(next, other) == Transcript(ref, other);
      }
    }
  }

  lemma PromptRowStrips(cfg: Config, kind: Kind, command: string)
    ensures StripRows([PromptRow(cfg, kind, BuildUserPrompt(kind, command))]) == [BuildUserPrompt(kind, command)]
  {
    var prompt := BuildUserPrompt(kind, command);
    PromptIsClean(kind, command);
    assert WithToolMetadata(prompt, [], []) == Ok(prompt);
    AttachThenStrip(prompt, [], []);
    assert [PromptRow(cfg, kind, prompt)][1..] == [];
  }

  /** The loop without the extractor does not see what the accumulators held before. */
  lemma PlainLoopFrom(cfg: Config, w: World, p: Prepared, bare: World)
    requires SameOutside(w, bare)
    ensures var (plain, loop) := (PlainLoop(cfg, w, p),
        ChatWithTools(cfg.connection, Bare(cfg.host), p.sent, cfg.Cap(), bare));
      plain.response == loop.response && plain.messages == loop.messages && SameOutside(plain.world, loop.world)
  {
    var entered := Entered(cfg.connection, p.sent);
    assert Bare(Bare(cfg.host)) == Bare(cfg.host);
    CaptureIsTransparent(cfg.connection, Bare(cfg.host), entered, cfg.Cap(), None, StartTurn(w), bare);
    var loop := ChatWithTools(cfg.connection, Bare(cfg.host), p.sent, cfg.Cap(), bare);
    NothingCaptured(Bare(cfg.host), loop.world.calls, |bare.calls|);
  }

  /** The rows after the model call strip to the new messages of the bare loop. */
  lemma FinishMatches(cfg: Config, s: StoreState, w: World, p: Prepared, bare: World)
    requires Refinable(cfg) && Harmless(cfg, w, p) && SameOutside(w, bare)
    ensures var turn := Finish(cfg, s, w, p);
      var loop := ChatWithTools(cfg.connection, Bare(cfg.host), p.sent, cfg.Cap(), bare);
      && SameOutside(turn.world, loop.world)
      && (loop.response.Raised? ==> turn.reply.Raised? && FinishRows(cfg, w, p) == [])
      && (loop.response.Ok? ==>
           && turn.reply == Ok(ExtractResponseText(p.kind, loop.response.value))
           && StripRows(FinishRows(cfg, w, p)) == NewMessages(p.sent, loop.messages))
  {
    LoopsCompare(cfg, w, p);
    PlainLoopFrom(cfg, w, p, bare);
    var loop := ChatWithTools(cfg.connection, cfg.host, p.sent, cfg.Cap(), StartTurn(w));
    if loop.response.Ok? {
      var messages := NewMessages(p.sent, loop.messages);
      LoopIsClean(cfg.connection, cfg.host, Entered(cfg.connection, p.sent), cfg.Cap(), None, StartTurn(w));
      AttachesExactly(messages, loop.world.refs, loop.world.payload);
      StoredRowsStrip(cfg, p.kind, messages, loop.world);
      AllStored(cfg, p.kind, s, p.id, messages, loop.world);
    }
  }

  lemma {:induction false} AllStored(cfg: Config, kind: Kind, s: StoreState, id: int, messages: seq<Json>, w: World)
    requires NeverFails(cfg) && |NewRows(cfg, kind, messages, w)| == |messages|
    ensures PersistNew(cfg, kind, s, id, messages, w).1.Ok?
    decreases |messages|
  {
    if messages != [] {
      var meta := WithToolMetadata(messages[0], w.refs, w.payload);
      if meta.Raised? {
        assert false;
      }
      var s1 := Append(cfg.faults, s, id, MessageRow(cfg, kind, messages[0], meta.value)).0;
      NoMoreRowsThanMessages(cfg, kind, messages[1..], w);
      AllStored(cfg, kind, s1, id, messages[1..], w);
    }
  }

  lemma {:induction false} NoMoreRowsThanMessages(cfg: Config, kind: Kind, messages: seq<Json>, w: World)
    ensures |NewRows(cfg, kind, messages, w)| <= |messages|
  {
    if messages != [] {
      NoMoreRowsThanMessages(cfg, kind, messages[1..], w);
    }
  }

  /** What preparing a turn does when nothing in the store fails, in the reference's terms. */
  lemma PrepareMatches(cfg: Config, s: StoreState, w: World, ref: Reference, hash: string, command: string)
    requires Refinable(cfg) && Matches(s, w, ref) && PromptStored(cfg, s, hash)
    ensures var conv := s.conversations[hash];
      var kind := KindNamed(conv.kind).value;
      var prompt := BuildUserPrompt(kind, command);
      var bounded := Truncated(LastN(Transcript(ref, conv.id), cfg.maxHistory) + [prompt], cfg.maxTokens);
      var sent := ScrubHistory(cfg.scrub, bounded);
      var (t, p) := Prepare(cfg, s, hash, command);
      && Grew(s, t, conv.id, [PromptRow(cfg, kind, prompt)])
      && (if sent.Ok? then p == Ok(Prepared(conv.id, kind, prompt, bounded, sent.value)) else p.Raised?)
  {
    var conv := s.conversations[hash];
    RecentIsSuffix(Log(s, conv.id), cfg.maxHistory);
    assert StripRows(Log(s, conv.id)) == Transcript(ref, conv.id);
  }

  /** One turn keeps the correspondence and answers alike. */
  lemma TurnRefines(cfg: Config, s: StoreState, w: World, ref: Reference, hash: string, command: string)
    requires Refinable(cfg) && HarmlessTurn(cfg, s, w, hash, command) && Matches(s, w, ref)
    ensures var turn := RunTurn(cfg, s, w, hash, command);
      var (reply, next) := ReferenceTurn(cfg, s.conversations, ref, hash, command);
      turn.reply == reply && turn.store.conversations == s.conversations && Matches(turn.store, turn.world, next)
  {
    if PromptStored(cfg, s, hash) {
      var conv := s.conversations[hash];
      var kind := KindNamed(conv.kind).value;
      var prompt := BuildUserPrompt(kind, command);
      PrepareMatches(cfg, s, w, ref, hash, command);
      PromptRowStrips(cfg, kind, command);
      var (s1, prepared) := Prepare(cfg, s, hash, command);
      if prepared.Raised? {
        GrownMatches(s, s1, conv.id, [PromptRow(cfg, kind, prompt)], [prompt], w, w, ref.world, ref);
      } else {
        FinishRefines(cfg, s, s1, w, ref, prepared.value, PromptRow(cfg, kind, prompt));
      }
    } else {
      assert forall id :: Log(Prepare(cfg, s, hash, command).0, id) == Log(s, id);
    }
  }

  lemma FinishRefines(cfg: Config, s: StoreState, s1: StoreState, w: World, ref: Reference, p: Prepared, row: Row)
    requires Refinable(cfg) && Harmless(cfg, w, p) && Matches(s, w, ref)
    requires Grew(s, s1, p.id, [row]) && StripRows([row]) == [p.prompt]
    ensures var turn := Finish(cfg, s1, w, p);
      var loop := ChatWithTools(cfg.connection, Bare(cfg.host), p.sent, cfg.Cap(), ref.world);
      && turn.store.conversations == s.conversations
      && turn.reply == (if loop.response.Raised? then Raised else Ok(ExtractResponseText(p.kind, loop.response.value)))
      && Matches(turn.store, turn.world, Extend(ref, p.id,
           if loop.response.Raised? then [p.prompt] else [p.prompt] + NewMessages(p.sent, loop.messages), loop.world))
  {
    FinishMatches(cfg, s1, w, p, ref.world);
    var turn := Finish(cfg, s1, w, p);
    var loop := ChatWithTools(cfg.connection, Bare(cfg.host), p.sent, cfg.Cap(), ref.world);
    var k := FinishFollows(cfg, s, s1, w, p, row);
    var rows := [row] + FinishRows(cfg, w, p);
    assert rows[..k] == rows;
    StripRowsSplits([row], FinishRows(cfg, w, p));
    var messages := if loop.response.Raised? then [p.prompt] else [p.prompt] + NewMessages(p.sent, loop.messages);
    GrownMatches(s, turn.store, p.id, rows, messages, w, turn.world, loop.world, ref);
  }

  /** The extractor's answers to the calls actually made do no harm, on every turn of a run. */
  ghost predicate HarmlessRun(cfg: Config, s: StoreState, w: World, commands: seq<Command>)
    decreases |commands|
  {
    commands != [] ==>
      && HarmlessTurn(cfg, s, w, commands[0].hash, commands[0].text)
      && var turn := RunTurn(cfg, s, w, commands[0].hash, commands[0].text);
         HarmlessRun(cfg, turn.store, turn.world, commands[1..])
  }

  /**
   Over every sequence of commands on any conversations, the session on the store returns
   exactly what the reference on plain transcripts returns, sends the model exactly the same
   lists and makes the same tool calls; and every log, stripped, is the transcript.
   */
  lemma {:induction false} SessionRefinesTranscript(
    cfg: Config, s: StoreState, w: World, ref: Reference, commands: seq<Command>)
    requires Refinable(cfg) && Matches(s, w, ref) && HarmlessRun(cfg, s, w, commands)
    ensures var run := Run(cfg, s, w, commands);
      var (replies, last) := ReferenceRun(cfg, s.conversations, ref, commands);
      && run.replies == replies
      && run.world.asked == last.world.asked && run.world.calls == last.world.calls
      && forall id :: StripRows(Log(run.store, id)) == Transcript(last, id)
    decreases |commands|
  {
    if commands != [] {
      TurnRefines(cfg, s, w, ref, commands[0].hash, commands[0].text);
      var turn := RunTurn(cfg, s, w, commands[0].hash, commands[0].text);
      var next := ReferenceTurn(cfg, s.conversations, ref, commands[0].hash, commands[0].text).1;
      SessionRefinesTranscript(cfg, turn.store, turn.world, next, commands[1..]);
    }
  }
}
