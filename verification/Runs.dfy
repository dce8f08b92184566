/** Whole runs of a session: what every stored log and every request looks like. */
module Runs {
  import opened Results
  import opened JsonValues
  import opened HistoryBudget
  import opened Replay
  import opened World
  import opened Rounds
  import opened Conservation
  import opened Pairing
  import opened Handlers
  import opened Gate
  import opened Capture
  import opened Metadata
  import opened Store
  import opened Session
  import opened Crash
  import opened Window

  // ---- rows and the messages they store ------------------------------------------

  /**
   The rows of the write loop, one per message; it stops short only at the first message
   (the captured references do not attach) or at one that is not a dict.
   */
  lemma {:induction false} NewRowsAre(cfg: Config, kind: Kind, messages: seq<Json>, w: World)
    ensures var rows := NewRows(cfg, kind, messages, w);
      && |rows| <= |messages|
      && (forall i :: 0 <= i < |rows| ==>
           && WithToolMetadata(messages[i], w.refs, w.payload) == Ok(rows[i].meta)
           && rows[i].sender == SenderFor(kind, messages[i])
           && rows[i].content == SummarizeForStorage(kind, cfg.repr, messages[i]))
      && (|rows| < |messages| ==> |rows| == 0 || !messages[|rows|].Obj?)
  {
    if messages != [] {
      NewRowsAre(cfg, kind, messages[1..], w);
      var meta := WithToolMetadata(messages[0], w.refs, w.payload);
      if meta.Ok? {
        var rest := NewRows(cfg, kind, messages[1..], w);
        if |rest| == 0 && |messages| > 1 && messages[1].Obj? && (w.refs != [] || w.payload != []) {
          assert WithToolMetadata(messages[1], w.refs, w.payload).Raised?;
        }
      }
    }
  }

  /**
   Every row stored after the prompt carries the fold of the turn's hook answers, and where
   nothing was captured what its own message has under that key.
   */
  lemma {:induction false} TurnMetadataIsTheFold(cfg: Config, w: World, p: Prepared, i: nat)
    requires i < |FinishRows(cfg, w, p)|
    ensures var loop := ChatWithTools(cfg.connection, cfg.host, p.sent, cfg.Cap(), StartTurn(w));
      var refs := CapturedRefs(cfg.host, loop.world.calls, |w.calls|);
      var payload := CapturedPayload(cfg.host, loop.world.calls, |w.calls|);
      var messages := NewMessages(p.sent, loop.messages);
      var meta := FinishRows(cfg, w, p)[i].meta;
      && i < |messages| && Deduped(refs, {}).Ok?
      && Get(meta, META_KEY_REFS) ==
           (if refs == [] then Get(messages[i], META_KEY_REFS) else Some(Arr(Deduped(refs, {}).value)))
      && Get(meta, META_KEY_LLM_PAYLOAD) ==
           (if payload == [] then Get(messages[i], META_KEY_LLM_PAYLOAD) else Some(Obj(payload)))
  {
    var loop := ChatWithTools(cfg.connection, cfg.host, p.sent, cfg.Cap(), StartTurn(w));
    var messages := NewMessages(p.sent, loop.messages);
    LoopFaithful(
      cfg.connection, cfg.host, |w.calls|, Entered(cfg.connection, p.sent), cfg.Cap(), None, StartTurn(w));
    NewRowsAre(cfg, p.kind, messages, loop.world);
    AttachedReads(messages[i], loop.world.refs, loop.world.payload);
  }

  /** The calls of a turn, from which its metadata is captured. */
  function TurnCalls(cfg: Config, w: World, p: Prepared): seq<Call> {
    ChatWithTools(cfg.connection, cfg.host, p.sent, cfg.Cap(), StartTurn(w)).world.calls
  }

  /** Every row of the answer holds everything the extractor said about the calls of the turn: its references ... */
  lemma {:induction false} SaidRefsReachEveryRow(
    cfg: Config, w: World, p: Prepared, i: nat, refs: seq<seq<Json>>, payloads: seq<Dict>) returns (stored: seq<Json>)
    requires i < |FinishRows(cfg, w, p)| && Said(cfg.host, TurnCalls(cfg, w, p), |w.calls|, refs, payloads)
    ensures HoldsTheSame(Concatenated(refs), stored)
    ensures Concatenated(refs) != [] ==> Get(FinishRows(cfg, w, p)[i].meta, "refs") == Some(Arr(stored))
  {
    TurnMetadataIsTheFold(cfg, w, p, i);
    SaidRefsAreCaptured(cfg.host, TurnCalls(cfg, w, p), |w.calls|, refs, payloads);
    stored := Deduped(Concatenated(refs), {}).value;
    DedupeKeepsKeys(Concatenated(refs));
  }

  /** ... and of each payload key the latest value. */
  lemma {:induction false} SaidPayloadsReachEveryRow(
    cfg: Config, w: World, p: Prepared, i: nat, refs: seq<seq<Json>>, payloads: seq<Dict>, key: string)
    returns (merged: Dict)
    requires i < |FinishRows(cfg, w, p)| && Said(cfg.host, TurnCalls(cfg, w, p), |w.calls|, refs, payloads)
    ensures Lookup(merged, key) == Latest(payloads, key)
    ensures Latest(payloads, key).Some? ==> Get(FinishRows(cfg, w, p)[i].meta, "llm_payload") == Some(Obj(merged))
  {
    TurnMetadataIsTheFold(cfg, w, p, i);
    merged := CapturedPayload(cfg.host, TurnCalls(cfg, w, p), |w.calls|);
    SaidPayloadsAreCaptured(cfg.host, TurnCalls(cfg, w, p), |w.calls|, refs, payloads, key);
  }

  /** The kinds a session can serve. */
  predicate Known(kind: string) {
    kind == "main_chat_openai" || kind == "main_chat_bedrock"
  }

  /**
   What a turn stores first, or nothing at all: the prompt in its provider's shape, filed under the
   user and summarised as typed. A conversation of an unknown kind, or none, ends the turn at once.
   */
  lemma {:induction false} PromptRowReads(cfg: Config, s: StoreState, w: World, hash: string, command: string)
    ensures if hash in s.conversations && Known(s.conversations[hash].kind) then
        var row := TurnPrompt(cfg, s, hash, command);
        && PromptStored(cfg, s, hash)
        && row.sender == SenderUser && row.content == TruncateSummary(command)
        && row.meta == Obj([Field("role", Str("user")), Field("content",
             if s.conversations[hash].kind == "main_chat_openai" then Str(command)
             else Arr([Obj([Field("text", Str(command))])]))])
      else
        var turn := RunTurn(cfg, s, w, hash, command);
        turn.reply.Raised? && turn.world == w && turn.store.logs == s.logs
  {
    assert "main_chat_openai"[10] != "main_chat_bedrock"[10];
    PromptSummary(OpenAiKind, cfg.repr, command);
    PromptSummary(BedrockKind, cfg.repr, command);
  }

  /** A turn sends at most its cap of requests, a hundred if none is set, none if it is negative. */
  lemma {:induction false} RequestsWithinCap(cfg: Config, s: StoreState, w: World, hash: string, command: string)
    ensures var turn := RunTurn(cfg, s, w, hash, command);
      var cap := if cfg.maxToolCallRounds.None? then 100
        else if cfg.maxToolCallRounds.value < 0 then 0 else cfg.maxToolCallRounds.value;
      |w.asked| <= |turn.world.asked| <= |w.asked| + cap
  {
    var (s1, p) := Prepare(cfg, s, hash, command);
    if p.Ok? {
      var entered := Entered(cfg.connection, p.value.sent);
      match cfg.connection
      case OpenAi(create) =>
        var added, done, tail := OpenAiConservation(create, cfg.host, entered, cfg.Cap(), None, StartTurn(w));
      case Bedrock(converse) =>
        var added, done, tail := BedrockConservation(converse, cfg.host, entered, cfg.Cap(), None, StartTurn(w));
    }
  }

  // ---- pairing over runs -------------------------------------------------------------

  /** The scrub keeps the correlation ids of a message. */
  ghost predicate KeepsIds(scrub: Scrubber, kind: Kind) {
    forall m :: scrub(m).Ok? ==>
      CallIds(kind, scrub(m).value) == CallIds(kind, m) && AnswerIds(kind, scrub(m).value) == AnswerIds(kind, m)
  }

  lemma {:induction false} StripKeepsIds(kind: Kind, m: Json)
    ensures CallIds(kind, StripPersistenceKeys(m)) == CallIds(kind, m)
    ensures AnswerIds(kind, StripPersistenceKeys(m)) == AnswerIds(kind, m)
  {
    assert "type"[0] != "refs"[0] && |"call_id"| != |"refs"| && |"content"| != |"refs"|;
    assert |"type"| != |"llm_payload"| && |"call_id"| != |"llm_payload"| && |"content"| != |"llm_payload"|;
    StripKeepsOtherKeys(m, "type");
    StripKeepsOtherKeys(m, "call_id");
    StripKeepsOtherKeys(m, "content");
  }

  lemma {:induction false} PlainMessageIsNotPlumbing(kind: Kind, m: Json)
    requires Get(m, "type").None?
    requires kind.OpenAiKind? || GetOrNull(m, "content").Str? || exists text :: Blocks(m) == [TextBlock(text)]
    ensures !Plumbing(kind, m)
  {
    if kind.BedrockKind? && !GetOrNull(m, "content").Str? {
      var text :| Blocks(m) == [TextBlock(text)];
      TextBlockIsPlain(text);
    }
  }

  lemma {:induction false} PromptIsNotPlumbing(kind: Kind, handler: Kind, command: string)
    ensures !Plumbing(kind, BuildUserPrompt(handler, command))
  {
    PromptFields(handler, command);
    PlainMessageIsNotPlumbing(kind, BuildUserPrompt(handler, command));
  }

  lemma {:induction false} ReplayIsNotPlumbing(kind: Kind, entries: seq<ReplayEntry>)
    ensures forall i :: 0 <= i < |ProjectEntries(entries)| ==> !Plumbing(kind, ProjectEntries(entries)[i])
  {
    if entries != [] {
      ReplayIsNotPlumbing(kind, entries[1..]);
      var m := ProjectEntry(entries[0]);
      if m.Some? {
        var f := m.value.fields;
        assert "role"[0] != "type"[0] && |"content"| != |"type"| && |"role"| != |"content"|;
        LookupPair(f[0], f[1], "type");
        LookupPair(f[0], f[1], "content");
        PlainMessageIsNotPlumbing(kind, m.value);
      }
    }
  }

  /** Stored rows, stripped, carry the ids of the messages they store. */
  lemma {:induction false} StripRowsAt(rows: seq<Row>, i: nat)
    requires i < |rows|
    ensures |StripRows(rows)| == |rows| && StripRows(rows)[i] == StripPersistenceKeys(rows[i].meta)
  {
    StripRowsSplits(rows, []);
    if i > 0 {
      StripRowsAt(rows[1..], i - 1);
    }
  }

  /** A list without its end is whole if the cut is not between a call and its result. */
  lemma {:induction false} PrefixWhole(kind: Kind, messages: seq<Json>, n: nat)
    requires Whole(kind, messages) && n <= |messages|
    requires 0 < n < |messages| ==> CallIds(kind, messages[n - 1]) == []
    ensures Whole(kind, messages[..n])
  {
    var s := messages[..n];
    forall i | 0 <= i < n && CallIds(kind, s[i]) != []
      ensures i + 1 < n && AnswerIds(kind, s[i + 1]) == CallIds(kind, s[i])
    {
      assert CallIds(kind, messages[i]) != [];
    }
    forall i | 0 < i < n && AnswerIds(kind, s[i]) != []
      ensures CallIds(kind, s[i - 1]) == AnswerIds(kind, s[i])
    {
      assert AnswerIds(kind, messages[i]) != [];
    }
  }

  lemma {:induction false} NotADictHasNoIds(kind: Kind, m: Json)
    requires !m.Obj?
    ensures AnswerIds(kind, m) == []
  {
  }

  lemma {:induction false} NewRowsWhole(cfg: Config, kind: Kind, handler: Kind, messages: seq<Json>, w: World)
    requires Whole(kind, messages)
    ensures Whole(kind, StripRows(NewRows(cfg, handler, messages, w)))
  {
    var rows := NewRows(cfg, handler, messages, w);
    var n := |rows|;
    NewRowsAre(cfg, handler, messages, w);
    if n < |messages| && !messages[n].Obj? {
      NotADictHasNoIds(kind, messages[n]);
    }
    PrefixWhole(kind, messages, n);
    StripRowsSplits(rows, []);
    var stripped := StripRows(rows);
    forall i | 0 <= i < n
      ensures CallIds(kind, messages[..n][i]) == CallIds(kind, stripped[i])
      ensures AnswerIds(kind, messages[..n][i]) == AnswerIds(kind, stripped[i])
    {
      StripRowsAt(rows, i);
      StripIgnoresSidecars(messages[i], w.refs, w.payload);
      StripKeepsIds(kind, messages[i]);
    }
    PairedIsAboutIds(kind, messages[..n], stripped);
  }

  ghost predicate StoredWhole(kind: Kind, s: StoreState) {
    forall id :: Whole(kind, StripRows(Log(s, id)))
  }

  lemma {:induction false} TruncatedPaired(kind: Kind, messages: seq<Json>, maxTokens: Option<int>)
    requires messages != [] && Paired(kind, messages)
    ensures var bounded := Truncated(messages, maxTokens);
      && Paired(kind, bounded) && bounded != [] && bounded[|bounded| - 1] == messages[|messages| - 1]
  {
    if Active(maxTokens) {
      LongestFittingOptimal(messages, maxTokens.value);
      SuffixPaired(kind, messages, |messages| - |LongestFitting(messages, maxTokens.value)|);
    }
  }

  lemma {:induction false} ScrubbedPaired(kind: Kind, scrub: Scrubber, messages: seq<Json>)
    requires KeepsIds(scrub, kind) && messages != [] && Paired(kind, messages)
    requires ScrubHistory(scrub, messages).Ok?
    ensures Paired(kind, ScrubHistory(scrub, messages).value)
  {
    ScrubHistoryShape(scrub, messages);
    var sent := ScrubHistory(scrub, messages).value;
    forall i | 0 <= i < |messages|
      ensures CallIds(kind, messages[i]) == CallIds(kind, sent[i])
      ensures AnswerIds(kind, messages[i]) == AnswerIds(kind, sent[i])
    {
      if i < |messages| - 1 {
        assert scrub(messages[i]) == Ok(sent[i]);
      }
    }
    PairedIsAboutIds(kind, messages, sent);
  }

  /** The history a turn starts from, replayed or stored, is paired. */
  lemma {:induction false} HistoryPaired(cfg: Config, kind: Kind, s: StoreState, hash: string, id: int)
    requires Whole(kind, StripRows(Log(s, id))) && BuildHistoricalContext(cfg, s, hash, id).1.Ok?
    ensures Paired(kind, BuildHistoricalContext(cfg, s, hash, id).1.value)
  {
    if cfg.replayer.Some? && cfg.replayer.value(s, hash, cfg.maxHistory).Ok? {
      var entries := cfg.replayer.value(s, hash, cfg.maxHistory).value;
      ReplayIsNotPlumbing(kind, entries);
      PlainWhole(kind, ProjectEntries(entries));
    } else {
      var stripped := StripRows(Log(s, id));
      RecentIsSuffix(Log(s, id), cfg.maxHistory);
      if cfg.maxHistory < |stripped| {
        SuffixPaired(kind, stripped, |stripped| - cfg.maxHistory);
      }
    }
  }

  /** How a prepared turn comes from its history. */
  lemma {:induction false} PreparedFromHistory(cfg: Config, s: StoreState, hash: string, command: string)
    requires Prepare(cfg, s, hash, command).1.Ok?
    ensures var p := Prepare(cfg, s, hash, command).1.value;
      var history := BuildHistoricalContext(cfg, Tick(s), hash, p.id).1;
      && history.Ok? && p.prompt == BuildUserPrompt(p.kind, command)
      && p.bounded == Truncated(history.value + [p.prompt], cfg.maxTokens)
      && ScrubHistory(cfg.scrub, p.bounded) == Ok(p.sent)
  {
  }

  /** A list a connection may be handed: paired, and ending with the plain prompt. */
  ghost predicate ReadyToSend(kind: Kind, p: Prepared) {
    && Paired(kind, p.sent) && p.sent != [] && p.sent[|p.sent| - 1] == p.prompt && !Plumbing(kind, p.prompt)
  }

  lemma {:induction false} PromptedPaired(cfg: Config, kind: Kind, history: seq<Json>, p: Prepared)
    requires KeepsIds(cfg.scrub, kind) && Paired(kind, history) && !Plumbing(kind, p.prompt)
    requires p.bounded == Truncated(history + [p.prompt], cfg.maxTokens)
    requires ScrubHistory(cfg.scrub, p.bounded) == Ok(p.sent)
    ensures ReadyToSend(kind, p)
  {
    PlainWhole(kind, [p.prompt]);
    AppendPaired(kind, history, [p.prompt]);
    TruncatedPaired(kind, history + [p.prompt], cfg.maxTokens);
    ScrubbedPaired(kind, cfg.scrub, p.bounded);
    ScrubHistoryShape(cfg.scrub, p.bounded);
  }

  lemma {:induction false} SentPaired(cfg: Config, kind: Kind, s: StoreState, hash: string, command: string)
    requires KeepsIds(cfg.scrub, kind) && StoredWhole(kind, s) && Prepare(cfg, s, hash, command).1.Ok?
    ensures ReadyToSend(kind, Prepare(cfg, s, hash, command).1.value)
  {
    var p := Prepare(cfg, s, hash, command).1.value;
    PreparedFromHistory(cfg, s, hash, command);
    assert Log(Tick(s), p.id) == Log(s, p.id);
    HistoryPaired(cfg, kind, Tick(s), hash, p.id);
    PromptIsNotPlumbing(kind, p.kind, command);
    PromptedPaired(cfg, kind, BuildHistoricalContext(cfg, Tick(s), hash, p.id).1.value, p);
  }

  ghost predicate Pairable(cfg: Config) {
    PairableReplies(cfg.connection) && KeepsIds(cfg.scrub, KindOf(cfg.connection))
  }

  ghost predicate NewRequestsPaired(kind: Kind, before: World, after: World) {
    && before.asked <= after.asked
    && forall k :: |before.asked| <= k < |after.asked| ==> Paired(kind, after.asked[k])
  }

  lemma {:induction false} FinishRowsWhole(cfg: Config, s: StoreState, w: World, p: Prepared)
    requires Pairable(cfg) && ReadyToSend(KindOf(cfg.connection), p)
    ensures var kind := KindOf(cfg.connection);
      && Whole(kind, StripRows(FinishRows(cfg, w, p)))
      && NewRequestsPaired(kind, w, Finish(cfg, s, w, p).world)
  {
    var kind := KindOf(cfg.connection);
    ChatPaired(cfg.connection, cfg.host, p.sent, cfg.Cap(), StartTurn(w));
    var loop := ChatWithTools(cfg.connection, cfg.host, p.sent, cfg.Cap(), StartTurn(w));
    if loop.response.Ok? {
      NewRowsWhole(cfg, kind, p.kind, NewMessages(p.sent, loop.messages), loop.world);
    }
  }

  lemma {:induction false} PromptRowPlain(cfg: Config, kind: Kind, s: StoreState, hash: string, command: string)
    ensures Whole(kind, StripRows([TurnPrompt(cfg, s, hash, command)]))
  {
    var row := TurnPrompt(cfg, s, hash, command);
    StripRowsAt([row], 0);
    StripKeepsIds(kind, row.meta);
    PromptIsNotPlumbing(kind, OpenAiKind, command);
    PromptIsNotPlumbing(kind, BedrockKind, command);
    PlainWhole(kind, StripRows([row]));
  }

  /** The rows of a turn, were all of them stored: its prompt, then its answer if there is one. */
  lemma {:induction false} TurnRowsWhole(cfg: Config, s: StoreState, w: World, hash: string, command: string)
    requires Pairable(cfg) && StoredWhole(KindOf(cfg.connection), s)
    ensures Whole(KindOf(cfg.connection), StripRows(AttemptedRows(cfg, s, w, hash, command)))
    ensures NewRequestsPaired(KindOf(cfg.connection), w, RunTurn(cfg, s, w, hash, command).world)
  {
    var kind := KindOf(cfg.connection);
    var (s1, prepared) := Prepare(cfg, s, hash, command);
    var prompt := [TurnPrompt(cfg, s, hash, command)];
    PromptRowPlain(cfg, kind, s, hash, command);
    if prepared.Ok? {
      SentPaired(cfg, kind, s, hash, command);
      FinishRowsWhole(cfg, s1, w, prepared.value);
      var more := FinishRows(cfg, w, prepared.value);
      StripRowsSplits(prompt, more);
      AppendPaired(kind, StripRows(prompt), StripRows(more));
    } else {
      assert prompt + [] == prompt;
    }
  }

  /** The last stored row is a tool call: the write of its result is the one that failed. */
  predicate EndsInCall(kind: Kind, rows: seq<Row>) {
    rows != [] && CallIds(kind, StripPersistenceKeys(rows[|rows| - 1].meta)) != []
  }

  lemma {:induction false} CutWhole(kind: Kind, messages: seq<Json>, k: nat)
    requires Whole(kind, messages) && k <= |messages|
    ensures Whole(kind, messages[..k]) <==> k == 0 || CallIds(kind, messages[k - 1]) == []
  {
    if k == 0 || CallIds(kind, messages[k - 1]) == [] {
      PrefixWhole(kind, messages, k);
    } else {
      assert CallIds(kind, messages[..k][k - 1]) != [];
    }
  }

  lemma {:induction false} CutStrips(rows: seq<Row>, k: nat)
    requires k <= |rows|
    ensures |StripRows(rows)| == |rows| && StripRows(rows[..k]) == StripRows(rows)[..k]
    ensures k > 0 ==> StripRows(rows)[k - 1] == StripPersistenceKeys(rows[k - 1].meta)
  {
    assert rows == rows[..k] + rows[k..];
    StripRowsSplits(rows[..k], rows[k..]);
    StripRowsSplits(rows, []);
    if k > 0 {
      StripRowsAt(rows, k - 1);
    }
  }

  lemma {:induction false} CutRowsWhole(kind: Kind, rows: seq<Row>, k: nat)
    requires Whole(kind, StripRows(rows)) && k <= |rows|
    ensures Whole(kind, StripRows(rows[..k])) <==> !EndsInCall(kind, rows[..k])
  {
    CutStrips(rows, k);
    CutWhole(kind, StripRows(rows), k);
  }

  /**
   Whatever fails, every request of a turn is paired. The log stays whole if and only if the last
   row the turn stored is not a tool call; if no write after the model call fails, it never is.
   */
  lemma {:induction false} TurnPaired(
    cfg: Config, s: StoreState, w: World, hash: string, command: string)
    returns (rows: seq<Row>)
    requires Pairable(cfg) && StoredWhole(KindOf(cfg.connection), s)
    ensures var turn := RunTurn(cfg, s, w, hash, command);
      && (hash in s.conversations ==> Grew(s, turn.store, s.conversations[hash].id, rows))
      && (StoredWhole(KindOf(cfg.connection), turn.store) <==> !EndsInCall(KindOf(cfg.connection), rows))
      && (WritesSucceed(cfg, s, w, hash, command) ==> !EndsInCall(KindOf(cfg.connection), rows))
      && NewRequestsPaired(KindOf(cfg.connection), w, turn.world)
  {
    var kind := KindOf(cfg.connection);
    var turn := RunTurn(cfg, s, w, hash, command);
    rows := [];
    TurnRowsWhole(cfg, s, w, hash, command);
    if hash in s.conversations {
      var k := StoredByTurn(cfg, s, w, hash, command);
      var full := AttemptedRows(cfg, s, w, hash, command);
      rows := full[..k];
      CutRowsWhole(kind, full, k);
      CutRowsWhole(kind, full, |full|);
      assert full[..|full|] == full && (k == 0 ==> rows == []);
      GrownWhole(kind, s, turn.store, s.conversations[hash].id, rows);
    } else {
      var k := CrashConsistency(cfg, s, w, hash, command);
      assert forall id :: Log(turn.store, id) == Log(s, id);
    }
  }

  lemma {:induction false} UnansweredIsNotWhole(kind: Kind, messages: seq<Json>)
    requires messages != [] && CallIds(kind, messages[|messages| - 1]) != []
    ensures !Whole(kind, messages)
  {
  }

  lemma {:induction false} LastRowStrips(before: seq<Row>, rows: seq<Row>)
    requires rows != []
    ensures var all := StripRows(before + rows);
      all != [] && all[|all| - 1] == StripPersistenceKeys(rows[|rows| - 1].meta)
  {
    StripRowsSplits(before, rows);
    StripRowsAt(rows, |rows| - 1);
  }

  lemma {:induction false} GrownWhole(kind: Kind, s: StoreState, t: StoreState, id: int, rows: seq<Row>)
    requires StoredWhole(kind, s) && Grew(s, t, id, rows)
    requires Whole(kind, StripRows(rows)) <==> !EndsInCall(kind, rows)
    ensures StoredWhole(kind, t) <==> !EndsInCall(kind, rows)
  {
    if EndsInCall(kind, rows) {
      LastRowStrips(Log(s, id), rows);
      UnansweredIsNotWhole(kind, StripRows(Log(t, id)));
    } else {
      StripRowsSplits(Log(s, id), rows);
      AppendPaired(kind, StripRows(Log(s, id)), StripRows(rows));
      forall other ensures Whole(kind, StripRows(Log(t, other))) {
        assert Whole(kind, StripRows(Log(s, other)));
        assert other != id ==> Log(t, other) == Log(s, other);
      }
    }
  }

  /**
   In every list sent to the model, on any turn of any run, every tool call is followed at once
   by its result and no result is orphaned but possibly the very first message. Lookups, history
   reads and prompt writes may fail; the writes after a model call do not.
   */
  lemma {:induction false} RunKeepsPairing(cfg: Config, s: StoreState, w: World, commands: seq<Command>)
    requires Pairable(cfg) && StoredWhole(KindOf(cfg.connection), s) && AllWritesSucceed(cfg, s, w, commands)
    ensures var run := Run(cfg, s, w, commands);
      && NewRequestsPaired(KindOf(cfg.connection), w, run.world)
      && StoredWhole(KindOf(cfg.connection), run.store)
    decreases |commands|
  {
    if commands != [] {
      var rows := TurnPaired(cfg, s, w, commands[0].hash, commands[0].text);
      var turn := RunTurn(cfg, s, w, commands[0].hash, commands[0].text);
      RunKeepsPairing(cfg, turn.store, turn.world, commands[1..]);
    }
  }
}
