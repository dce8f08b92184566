/** Every log reads as turns: a prompt, pairs of tool rows, then assistant rows. */
module Words {
  import opened Results
  import opened JsonValues
  import opened World
  import opened Rounds
  import opened Conservation
  import opened Pairing
  import opened Handlers
  import opened Metadata
  import opened Store
  import opened Session
  import opened Crash
  import opened Runs

  // ---- the words ---------------------------------------------------------------

  function Assistants(n: nat): seq<Sender> {
    if n == 0 then [] else [SenderAssistant] + Assistants(n - 1)
  }

  /** `pairs` times two tool rows, then `n` assistant rows. */
  function AnswerWord(pairs: nat, n: nat): seq<Sender> {
    if pairs == 0 then Assistants(n) else [SenderTool, SenderTool] + AnswerWord(pairs - 1, n)
  }

  /** What one turn leaves in a log. */
  ghost predicate TurnWord(senders: seq<Sender>, cap: nat) {
    exists pairs: nat, n: nat :: pairs <= cap && senders == [SenderUser] + AnswerWord(pairs, n)
  }

  /** What a turn leaves whose last writes may have failed: the start of such a word. */
  ghost predicate TornWord(senders: seq<Sender>, cap: nat) {
    exists lost :: TurnWord(senders + lost, cap)
  }

  ghost predicate AllTurns(words: seq<seq<Sender>>, cap: nat, torn: bool) {
    forall i :: 0 <= i < |words| ==> if torn then TornWord(words[i], cap) else TurnWord(words[i], cap)
  }

  function Flatten(words: seq<seq<Sender>>): seq<Sender> {
    if words == [] then [] else words[0] + Flatten(words[1..])
  }

  /** A log is a sequence of such words. */
  ghost predicate LogOfWords(senders: seq<Sender>, cap: nat, torn: bool) {
    exists words :: Flatten(words) == senders && AllTurns(words, cap, torn)
  }

  lemma {:induction false} FlattenAppend(words: seq<seq<Sender>>, word: seq<Sender>)
    ensures Flatten(words + [word]) == Flatten(words) + word
  {
    if words == [] {
      assert [word][1..] == [] && [] + [word] == [word];
    } else {
      assert (words + [word])[1..] == words[1..] + [word];
      FlattenAppend(words[1..], word);
    }
  }

  lemma {:induction false} LogGrowsByAWord(words: seq<seq<Sender>>, word: seq<Sender>, cap: nat, torn: bool)
    requires AllTurns(words, cap, torn) && if torn then TornWord(word, cap) else TurnWord(word, cap)
    ensures LogOfWords(Flatten(words) + word, cap, torn)
  {
    FlattenAppend(words, word);
    assert AllTurns(words + [word], cap, torn);
  }

  // ---- senders of messages and rows ----------------------------------------------

  function SendersOf(kind: Kind, messages: seq<Json>): seq<Sender> {
    if messages == [] then [] else [SenderFor(kind, messages[0])] + SendersOf(kind, messages[1..])
  }

  function RowSenders(rows: seq<Row>): seq<Sender> {
    if rows == [] then [] else [rows[0].sender] + RowSenders(rows[1..])
  }

  lemma {:induction false} SendersSplit(kind: Kind, a: seq<Json>, b: seq<Json>)
    ensures SendersOf(kind, a + b) == SendersOf(kind, a) + SendersOf(kind, b)
  {
    if a == [] {
      assert a + b == b;
    } else {
      assert (a + b)[1..] == a[1..] + b;
      SendersSplit(kind, a[1..], b);
    }
  }

  lemma {:induction false} RowSendersSplit(a: seq<Row>, b: seq<Row>)
    ensures RowSenders(a + b) == RowSenders(a) + RowSenders(b)
  {
    if a == [] {
      assert a + b == b;
    } else {
      assert (a + b)[1..] == a[1..] + b;
      RowSendersSplit(a[1..], b);
    }
  }

  // ---- one loop -------------------------------------------------------------------

  /**
   What is asked of the provider: final items are the assistant's, a Bedrock stop for tool use
   uses a tool, and any other Bedrock stop carries no tool blocks.
   */
  ghost predicate PlainSpeaking(conn: Connection) {
    match conn
    case OpenAi(create) => forall asked, calls :: create(asked, calls).Ok? ==>
      forall m :: m in create(asked, calls).value.output && HasType(m, "message") ==> HasRole(m, "assistant")
    case Bedrock(converse) => forall asked, calls :: converse(asked, calls).Ok? ==>
      PlainStop(converse(asked, calls).value)
  }

  ghost predicate PlainStop(reply: BedrockReply) {
    && HasRole(reply.message, "assistant")
    && (if reply.stopReason == "tool_use" then Uses(Blocks(reply.message)) != []
        else forall i :: 0 <= i < |Blocks(reply.message)| ==> !IsPlumbingBlock(Blocks(reply.message)[i]))
  }

  /** A message item whose role is assistant is stored as an assistant row. */
  lemma {:induction false} MessageIsAssistants(m: Json)
    requires HasType(m, "message") && HasRole(m, "assistant")
    ensures SenderFor(OpenAiKind, m) == SenderAssistant
  {
    TypesDiffer();
  }

  lemma {:induction false} MessageItemsSpeak(output: seq<Json>)
    requires forall i :: 0 <= i < |output| && HasType(output[i], "message") ==> HasRole(output[i], "assistant")
    ensures SendersOf(OpenAiKind, MessageItems(output)) == Assistants(|MessageItems(output)|)
  {
    if output != [] {
      MessageItemsSpeak(output[1..]);
      var rest := MessageItems(output[1..]);
      if HasType(output[0], "message") {
        MessageIsAssistants(output[0]);
        assert ([output[0]] + rest)[1..] == rest;
      }
    }
  }

  lemma {:induction false} UsesAreBlocks(blocks: seq<Json>)
    ensures Uses(blocks) != [] ==> exists i :: 0 <= i < |blocks| && IsPlumbingBlock(blocks[i])
  {
    if blocks != [] {
      UsesAreBlocks(blocks[1..]);
      if Truthy(ToolUse(blocks[0])) {
        assert IsPlumbingBlock(blocks[0]);
      } else if Uses(blocks[1..]) != [] {
        var i :| 0 <= i < |blocks[1..]| && IsPlumbingBlock(blocks[1..][i]);
        assert IsPlumbingBlock(blocks[i + 1]);
      }
    }
  }

  lemma {:induction false} TwoSenders(kind: Kind, a: Json, b: Json)
    ensures SendersOf(kind, [a, b]) == [SenderFor(kind, a), SenderFor(kind, b)]
  {
    assert [a][1..] == [] && [b][1..] == [] && [a, b] == [a] + [b];
    SendersSplit(kind, [a], [b]);
  }

  /** A round that goes on appends two tool messages, a final one assistant messages only. */
  ghost predicate Spoken(kind: Kind, round: Round) {
    match round
    case Crash(_, _) => true
    case More(_, added, _) => SendersOf(kind, added) == [SenderTool, SenderTool]
    case Stop(_, added, _) => SendersOf(kind, added) == Assistants(|added|)
  }

  lemma {:induction false} OpenAiRoundSpeaks(create: OpenAiClient, host: Host, messages: seq<Json>, w: World)
    requires PlainSpeaking(OpenAi(create))
    ensures Spoken(OpenAiKind, OpenAiRound(create, host, messages, w))
  {
    var round := OpenAiRound(create, host, messages, w);
    var w1 := Ask(w, messages);
    var answer := create(w1.asked, w1.calls);
    if answer.Ok? && !answer.value.error {
      FirstCallIsACall(answer.value.output);
      MessageItemsSpeak(answer.value.output);
      if round.More? {
        var item := FirstCall(answer.value.output).value;
        CallOutputAnswers(item, InvokeItem(host, item, w1).1.value);
        TwoSenders(OpenAiKind, round.added[0], round.added[1]);
      }
    }
  }

  lemma {:induction false} FollowUpSpeaks(results: seq<Json>, uses: seq<Json>, calls: seq<Call>)
    requires RunsUses(uses, calls, results) && uses != []
    ensures SenderFor(BedrockKind, FollowUp(results)) == SenderTool
  {
    FollowUpHasBlocks(results);
    ResultBlockId(uses[0], calls[0].result.value);
    assert results[0] == ToolResultBlock(uses[0], calls[0].result.value);
    assert IsPlumbingBlock(Blocks(FollowUp(results))[0]);
  }

  lemma {:induction false} BedrockRoundSpeaks(converse: BedrockClient, host: Host, messages: seq<Json>, w: World)
    requires PlainSpeaking(Bedrock(converse))
    ensures Spoken(BedrockKind, BedrockRound(converse, host, messages, w))
  {
    var round := BedrockRound(converse, host, messages, w);
    var w1 := Ask(w, messages);
    var answer := converse(w1.asked, w1.calls);
    if answer.Ok? {
      var reply := answer.value;
      assert PlainStop(reply);
      if round.More? {
        var blocks := Blocks(reply.message);
        var (w2, results) := RunBlocks(host, blocks, w1);
        BlocksConservation(host, blocks, w1);
        FollowUpSpeaks(results.value, Uses(blocks), w2.calls[|w1.calls|..]);
        UsesAreBlocks(blocks);
        TwoSenders(BedrockKind, round.added[0], round.added[1]);
      } else {
        assert [reply.message][1..] == [];
        assert Assistants(1) == [SenderAssistant] + Assistants(0);
      }
    }
  }

  /** The messages a loop appended read as pairs of tool messages, then assistant messages. */
  ghost predicate Answers(kind: Kind, messages: seq<Json>, r: LoopResult, pairs: nat, n: nat) {
    && messages <= r.messages
    && (r.response.Ok? ==> SendersOf(kind, r.messages[|messages|..]) == AnswerWord(pairs, n))
  }

  lemma {:induction false} LoopSpeaks(
    conn: Connection, host: Host, messages: seq<Json>, rounds: nat, last: Option<Response>, w: World)
    returns (pairs: nat, n: nat)
    requires PlainSpeaking(conn)
    ensures pairs <= rounds && Answers(KindOf(conn), messages, Loop(conn, host, messages, rounds, last, w), pairs, n)
    decreases rounds
  {
    pairs, n := 0, 0;
    if rounds > 0 && RunRound(conn, host, messages, w).More? {
      var round := RunRound(conn, host, messages, w);
      RoundSpeaks(conn, host, messages, w);
      var next := messages + round.added;
      pairs, n := LoopSpeaks(conn, host, next, rounds - 1, Some(round.reply), round.world);
      var r := Loop(conn, host, next, rounds - 1, Some(round.reply), round.world);
      AnswerGrows(KindOf(conn), messages, round.added, r, pairs, n);
      pairs := pairs + 1;
    } else {
      n := LastRoundSpeaks(conn, host, messages, rounds, last, w);
    }
  }

  lemma {:induction false} LastRoundSpeaks(
    conn: Connection, host: Host, messages: seq<Json>, rounds: nat, last: Option<Response>, w: World) returns (n: nat)
    requires PlainSpeaking(conn) && (rounds == 0 || !RunRound(conn, host, messages, w).More?)
    ensures Answers(KindOf(conn), messages, Loop(conn, host, messages, rounds, last, w), 0, n)
  {
    n := 0;
    if rounds == 0 {
      assert messages[|messages|..] == [];
    } else {
      var round := RunRound(conn, host, messages, w);
      RoundSpeaks(conn, host, messages, w);
      n := |round.added|;
      assert (messages + round.added)[|messages|..] == round.added;
    }
  }

  lemma {:induction false} RoundSpeaks(conn: Connection, host: Host, messages: seq<Json>, w: World)
    requires PlainSpeaking(conn)
    ensures Spoken(KindOf(conn), RunRound(conn, host, messages, w))
  {
    match conn
    case OpenAi(create) => OpenAiRoundSpeaks(create, host, messages, w);
    case Bedrock(converse) => BedrockRoundSpeaks(converse, host, messages, w);
  }

  lemma {:induction false} AnswerGrows(
    kind: Kind, messages: seq<Json>, added: seq<Json>, r: LoopResult, pairs: nat, n: nat)
    requires SendersOf(kind, added) == [SenderTool, SenderTool]
    requires Answers(kind, messages + added, r, pairs, n)
    ensures Answers(kind, messages, r, pairs + 1, n)
  {
    assert messages <= r.messages by {
      assert messages <= messages + added;
    }
    var rest := r.messages[|messages + added|..];
    assert r.messages[|messages|..] == added + rest;
    SendersSplit(kind, added, rest);
  }

  // ---- rows --------------------------------------------------------------------------

  lemma {:induction false} RowSendersFollow(cfg: Config, kind: Kind, messages: seq<Json>, w: World)
    requires |NewRows(cfg, kind, messages, w)| == |messages|
    ensures RowSenders(NewRows(cfg, kind, messages, w)) == SendersOf(kind, messages)
  {
    if messages != [] {
      var meta := WithToolMetadata(messages[0], w.refs, w.payload);
      NewRowsAre(cfg, kind, messages[1..], w);
      var rest := NewRows(cfg, kind, messages[1..], w);
      if meta.Ok? {
        var row := MessageRow(cfg, kind, messages[0], meta.value);
        assert ([row] + rest)[1..] == rest;
        RowSendersFollow(cfg, kind, messages[1..], w);
      }
    }
  }

  lemma {:induction false} SpokenMessagesAreDicts(kind: Kind, messages: seq<Json>, i: nat)
    requires i < |messages|
    ensures |SendersOf(kind, messages)| == |messages| && SendersOf(kind, messages)[i] == SenderFor(kind, messages[i])
    ensures SendersOf(kind, messages)[i] != SenderUser ==> messages[i].Obj?
    decreases |messages|
  {
    if i > 0 {
      SpokenMessagesAreDicts(kind, messages[1..], i - 1);
    } else if |messages| > 1 {
      SpokenMessagesAreDicts(kind, messages[1..], 0);
    }
  }

  lemma {:induction false} NoPromptInside(pairs: nat, n: nat)
    ensures forall i :: 0 <= i < |AnswerWord(pairs, n)| ==> AnswerWord(pairs, n)[i] != SenderUser
  {
    if pairs > 0 {
      NoPromptInside(pairs - 1, n);
    } else if n > 0 {
      NoPromptInside(0, n - 1);
      assert AnswerWord(0, n - 1) == Assistants(n - 1);
    }
  }

  /** The rows after the model call: the whole answer, or none of it. */
  lemma {:induction false} FinishRowsSpeak(cfg: Config, w: World, p: Prepared) returns (pairs: nat, n: nat)
    requires PlainSpeaking(cfg.connection) && p.kind == KindOf(cfg.connection)
    ensures pairs <= cfg.Cap() && RowSenders(FinishRows(cfg, w, p)) == AnswerWord(pairs, n)
  {
    var entered := Entered(cfg.connection, p.sent);
    var loop := ChatWithTools(cfg.connection, cfg.host, p.sent, cfg.Cap(), StartTurn(w));
    pairs, n := LoopSpeaks(cfg.connection, cfg.host, entered, cfg.Cap(), None, StartTurn(w));
    var messages := NewMessages(p.sent, loop.messages);
    var rows := NewRows(cfg, p.kind, messages, loop.world);
    NewRowsAre(cfg, p.kind, messages, loop.world);
    if loop.response.Raised? || |rows| == 0 {
      pairs, n := 0, 0;
    } else {
      if |rows| < |messages| {
        SpokenMessagesAreDicts(p.kind, messages, |rows|);
        NoPromptInside(pairs, n);
      }
      RowSendersFollow(cfg, p.kind, messages, loop.world);
    }
  }

  // ---- runs ------------------------------------------------------------------------------

  /** Every conversation this session can serve is of its connection's kind. */
  ghost predicate OwnKind(cfg: Config, s: StoreState) {
    forall hash :: hash in s.conversations && KindNamed(s.conversations[hash].kind).Some?
      ==> KindNamed(s.conversations[hash].kind).value == KindOf(cfg.connection)
  }

  ghost predicate Orderly(cfg: Config, s: StoreState, torn: bool) {
    forall id :: LogOfWords(RowSenders(Log(s, id)), cfg.Cap(), torn) && RowsFit(Log(s, id))
  }

  predicate RowsFit(rows: seq<Row>) {
    forall i :: 0 <= i < |rows| ==> |rows[i].content| <= MAX_CONTENT_SUMMARY_LEN
  }

  lemma {:induction false} PromptAndAnswer(cfg: Config, w: World, p: Prepared, row: Row)
    requires PlainSpeaking(cfg.connection) && p.kind == KindOf(cfg.connection)
    requires row.sender == SenderUser && RowsFit([row])
    ensures var rows := [row] + FinishRows(cfg, w, p); TurnWord(RowSenders(rows), cfg.Cap()) && RowsFit(rows)
  {
    assert [row][1..] == [] && RowSenders([row]) == [SenderUser];
    var pairs, n := FinishRowsSpeak(cfg, w, p);
    RowSendersSplit([row], FinishRows(cfg, w, p));
    var loop := ChatWithTools(cfg.connection, cfg.host, p.sent, cfg.Cap(), StartTurn(w));
    NewRowsFit(cfg, p.kind, NewMessages(p.sent, loop.messages), loop.world);
  }

  lemma {:induction false} PromptAlone(row: Row, cap: nat)
    requires row.sender == SenderUser
    ensures TurnWord(RowSenders([row]), cap)
  {
    assert [row][1..] == [] && RowSenders([row]) == [SenderUser];
    assert [SenderUser] + AnswerWord(0, 0) == [SenderUser];
  }

  /** The rows of a turn, were all of them stored. */
  lemma {:induction false} TurnRowsSpeak(cfg: Config, s: StoreState, w: World, hash: string, command: string)
    requires PlainSpeaking(cfg.connection) && OwnKind(cfg, s) && hash in s.conversations
    ensures var rows := AttemptedRows(cfg, s, w, hash, command);
      TurnWord(RowSenders(rows), cfg.Cap()) && RowsFit(rows)
  {
    var row := TurnPrompt(cfg, s, hash, command);
    if Prepare(cfg, s, hash, command).1.Ok? {
      var stored := PrepareGrows(cfg, s, hash, command);
      PromptAndAnswer(cfg, w, Prepare(cfg, s, hash, command).1.value, row);
    } else {
      PromptAlone(row, cfg.Cap());
      assert [row] + [] == [row];
    }
  }

  lemma {:induction false} NewRowsFit(cfg: Config, kind: Kind, messages: seq<Json>, w: World)
    ensures RowsFit(NewRows(cfg, kind, messages, w))
  {
    if messages != [] {
      NewRowsFit(cfg, kind, messages[1..], w);
    }
  }

  lemma {:induction false} StartOfAWord(rows: seq<Row>, lost: seq<Row>, cap: nat)
    requires TurnWord(RowSenders(rows + lost), cap)
    ensures TornWord(RowSenders(rows), cap)
  {
    RowSendersSplit(rows, lost);
  }

  lemma {:induction false} TurnOrderly(cfg: Config, s: StoreState, w: World, hash: string, command: string, torn: bool)
    requires PlainSpeaking(cfg.connection) && OwnKind(cfg, s) && Orderly(cfg, s, torn)
    requires torn || WritesSucceed(cfg, s, w, hash, command)
    ensures var turn := RunTurn(cfg, s, w, hash, command);
      turn.store.conversations == s.conversations && Orderly(cfg, turn.store, torn)
  {
    var turn := RunTurn(cfg, s, w, hash, command);
    if hash in s.conversations {
      var k := StoredByTurn(cfg, s, w, hash, command);
      var rows := AttemptedRows(cfg, s, w, hash, command);
      TurnRowsSpeak(cfg, s, w, hash, command);
      assert rows[..k] + rows[k..] == rows && (k == |rows| ==> rows[..k] == rows) && (k == 0 ==> rows[..k] == []);
      StartOfAWord(rows[..k], rows[k..], cfg.Cap());
      GrownOrderly(cfg, s, turn.store, s.conversations[hash].id, rows[..k], torn);
    } else {
      var k := CrashConsistency(cfg, s, w, hash, command);
      assert forall id :: Log(turn.store, id) == Log(s, id);
    }
  }

  lemma {:induction false} GrownOrderly(cfg: Config, s: StoreState, t: StoreState, id: int, rows: seq<Row>, torn: bool)
    requires Orderly(cfg, s, torn) && Grew(s, t, id, rows)
    requires rows == [] || if torn then TornWord(RowSenders(rows), cfg.Cap()) else TurnWord(RowSenders(rows), cfg.Cap())
    requires RowsFit(rows)
    ensures Orderly(cfg, t, torn)
  {
    forall other
      ensures LogOfWords(RowSenders(Log(t, other)), cfg.Cap(), torn) && RowsFit(Log(t, other))
    {
      if other != id {
        assert Log(t, other) == Log(s, other);
      } else if rows == [] {
        assert Log(t, id) == Log(s, id);
      } else {
        RowSendersSplit(Log(s, id), rows);
        var words :| Flatten(words) == RowSenders(Log(s, id)) && AllTurns(words, cfg.Cap(), torn);
        LogGrowsByAWord(words, RowSenders(rows), cfg.Cap(), torn);
      }
    }
  }

  /**
   After any run every log is a concatenation of turns, failed model calls included: a prompt, at
   most as many pairs of tool rows as the round cap, then assistant rows; and every summary fits
   its column. On a store that may fail anywhere each turn is the start of such a word (`torn`);
   if no write after a model call fails, each is a whole one.
   */
  lemma {:induction false} RunIsOrderly(cfg: Config, s: StoreState, w: World, commands: seq<Command>, torn: bool)
    requires PlainSpeaking(cfg.connection) && OwnKind(cfg, s) && Orderly(cfg, s, torn)
    requires torn || AllWritesSucceed(cfg, s, w, commands)
    ensures Orderly(cfg, Run(cfg, s, w, commands).store, torn)
    decreases |commands|
  {
    if commands != [] {
      TurnOrderly(cfg, s, w, commands[0].hash, commands[0].text, torn);
      var turn := RunTurn(cfg, s, w, commands[0].hash, commands[0].text);
      RunIsOrderly(cfg, turn.store, turn.world, commands[1..], torn);
    }
  }
}
