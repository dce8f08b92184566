/**
 The promise that metadata extraction never breaks a turn (`llm_core_lib/chat/chat_session.py`),
 and exactly when it is kept: when every answer can be taken in and what was captured can be
 written beside the new messages.
 */
module Extraction {
  import opened Results
  import opened JsonValues
  import opened Fragments
  import opened World
  import opened Rounds
  import opened Handlers
  import opened Capture
  import opened Metadata
  import opened Store
  import opened Session
  import opened Crash
  import opened Window

  /** The same session without its extractor. */
  function Unhooked(cfg: Config): Config {
    cfg.(host := Bare(cfg.host))
  }

  // ---- writing what was captured ------------------------------------------------

  /** Nothing to write, or references that de-duplicate and messages that are dicts. */
  ghost predicate AttachesTo(messages: seq<Json>, refs: seq<Json>, payload: Dict) {
    || messages == []
    || (refs == [] && payload == [])
    || (Writable(refs) && forall i :: 0 <= i < |messages| ==> messages[i].Obj?)
  }

  lemma AttachesExactly(messages: seq<Json>, refs: seq<Json>, payload: Dict)
    ensures AttachesTo(messages, refs, payload)
      <==> forall i :: 0 <= i < |messages| ==> WithToolMetadata(messages[i], refs, payload).Ok?
  {
    DedupeGoesThrough(refs);
    if messages != [] && !AttachesTo(messages, refs, payload) {
      if Writable(refs) {
        var i :| 0 <= i < |messages| && !messages[i].Obj?;
        assert WithToolMetadata(messages[i], refs, payload).Raised?;
      } else {
        assert WithToolMetadata(messages[0], refs, payload).Raised?;
      }
    }
  }

  /** Two stores that differ in side-cars alone. */
  ghost predicate SameButSidecars(s: StoreState, t: StoreState) {
    && s.ops == t.ops && s.conversations == t.conversations
    && forall id :: StripRows(Log(s, id)) == StripRows(Log(t, id))
  }

  lemma AppendsSame(cfg: Config, s: StoreState, t: StoreState, id: int, x: Row, y: Row)
    requires SameButSidecars(s, t) && StripRows([x]) == StripRows([y])
    ensures var ((s1, done), (t1, plain)) := (Append(cfg.faults, s, id, x), Append(cfg.faults, t, id, y));
      SameButSidecars(s1, t1) && done == plain
  {
    var (s1, t1) := (Append(cfg.faults, s, id, x).0, Append(cfg.faults, t, id, y).0);
    StripRowsSplits(Log(s, id), [x]);
    StripRowsSplits(Log(t, id), [y]);
    forall other ensures StripRows(Log(s1, other)) == StripRows(Log(t1, other)) {
      assert StripRows(Log(s, other)) == StripRows(Log(t, other));
    }
  }

  /** The write loop with side-cars and the one without: both go through, unless some cannot be written. */
  lemma {:induction false} WritesCompare(
    cfg: Config, kind: Kind, s: StoreState, t: StoreState, id: int, messages: seq<Json>, w: World, plain: World)
    requires SameButSidecars(s, t) && plain.refs == [] && plain.payload == []
    ensures var (s1, done) := PersistNew(cfg, kind, s, id, messages, w);
      var (t1, bare) := PersistNew(Unhooked(cfg), kind, t, id, messages, plain);
      if forall i :: 0 <= i < |messages| ==> WithToolMetadata(messages[i], w.refs, w.payload).Ok?
        then done == bare && SameButSidecars(s1, t1)
        else done.Raised?
    decreases |messages|
  {
    if messages != [] {
      var meta := WithToolMetadata(messages[0], w.refs, w.payload);
      if meta.Ok? {
        var x := MessageRow(cfg, kind, messages[0], meta.value);
        var y := MessageRow(cfg, kind, messages[0], messages[0]);
        StripIgnoresSidecars(messages[0], w.refs, w.payload);
        assert [x][1..] == [] && [y][1..] == [];
        AppendsSame(cfg, s, t, id, x, y);
        var (s1, t1) := (Append(cfg.faults, s, id, x).0, Append(cfg.faults, t, id, y).0);
        WritesCompare(cfg, kind, s1, t1, id, messages[1..], w, plain);
        assert forall i :: 0 < i < |messages| ==> messages[i] == messages[1..][i - 1];
      }
    }
  }

  // ---- one turn ---------------------------------------------------------------------

  lemma {:induction false} NothingCaptured(host: Host, calls: seq<Call>, start: nat)
    requires host.hook.None?
    ensures CapturedRefs(host, calls, start) == [] && CapturedPayload(host, calls, start) == []
    ensures WellAnswered(host, calls, start)
  {
    if |calls| > start {
      NothingCaptured(host, calls[..|calls| - 1], start);
    }
  }

  /** The loop of a turn without the extractor. */
  function PlainLoop(cfg: Config, w: World, p: Prepared): LoopResult {
    ChatWithTools(cfg.connection, Bare(cfg.host), p.sent, cfg.Cap(), StartTurn(w))
  }

  /**
   What the extractor answers about the calls of the turn without it can all be taken in, and
   what they add up to can be written beside the new messages.
   */
  ghost predicate Harmless(cfg: Config, w: World, p: Prepared) {
    var plain := PlainLoop(cfg, w, p);
    var calls := plain.world.calls;
    && WellAnswered(cfg.host, calls, |w.calls|)
    && (plain.response.Ok? ==> AttachesTo(NewMessages(p.sent, plain.messages),
         CapturedRefs(cfg.host, calls, |w.calls|), CapturedPayload(cfg.host, calls, |w.calls|)))
  }

  /** The loop of a turn, against the loop without the extractor. */
  lemma LoopsCompare(cfg: Config, w: World, p: Prepared)
    ensures var loop := ChatWithTools(cfg.connection, cfg.host, p.sent, cfg.Cap(), StartTurn(w));
      var plain := PlainLoop(cfg, w, p);
      && plain.world.refs == [] && plain.world.payload == []
      && if WellAnswered(cfg.host, plain.world.calls, |w.calls|) then
           && loop.response == plain.response && loop.messages == plain.messages
           && SameOutside(loop.world, plain.world)
           && loop.world.refs == CapturedRefs(cfg.host, plain.world.calls, |w.calls|)
           && loop.world.payload == CapturedPayload(cfg.host, plain.world.calls, |w.calls|)
         else loop.response.Raised?
  {
    var (entered, w0) := (Entered(cfg.connection, p.sent), StartTurn(w));
    CaptureIsTransparent(cfg.connection, cfg.host, entered, cfg.Cap(), None, w0, w0);
    LoopFaithful(cfg.connection, cfg.host, |w.calls|, entered, cfg.Cap(), None, w0);
    LoopFaithful(cfg.connection, Bare(cfg.host), |w.calls|, entered, cfg.Cap(), None, w0);
    NothingCaptured(Bare(cfg.host), PlainLoop(cfg, w, p).world.calls, |w.calls|);
  }

  ghost predicate SameTurn(turn: TurnResult, plain: TurnResult) {
    && turn.reply == plain.reply && SameOutside(turn.world, plain.world)
    && SameButSidecars(turn.store, plain.store)
  }

  lemma FinishesCompare(cfg: Config, s: StoreState, w: World, p: Prepared)
    ensures var (turn, plain) := (Finish(cfg, s, w, p), Finish(Unhooked(cfg), s, w, p));
      if Harmless(cfg, w, p) then SameTurn(turn, plain) else turn.reply.Raised?
  {
    LoopsCompare(cfg, w, p);
    var loop := ChatWithTools(cfg.connection, cfg.host, p.sent, cfg.Cap(), StartTurn(w));
    var plain := PlainLoop(cfg, w, p);
    if WellAnswered(cfg.host, plain.world.calls, |w.calls|) && plain.response.Ok? {
      var messages := NewMessages(p.sent, plain.messages);
      WritesCompare(cfg, p.kind, s, s, p.id, messages, loop.world, plain.world);
      AttachesExactly(messages, loop.world.refs, loop.world.payload);
    }
  }

  ghost predicate HarmlessTurn(cfg: Config, s: StoreState, w: World, hash: string, command: string) {
    var p := Prepare(cfg, s, hash, command).1;
    p.Ok? ==> Harmless(cfg, w, p.value)
  }

  /**
   Extraction leaves a turn alone exactly when it is harmless, on any store, with any provider:
   then the turn returns, sends, calls and stores, side-cars aside, what it does without the
   extractor, and otherwise it raises whatever it does without.
   */
  lemma TurnSurvivesExtraction(cfg: Config, s: StoreState, w: World, hash: string, command: string)
    ensures var (turn, plain) := (RunTurn(cfg, s, w, hash, command), RunTurn(Unhooked(cfg), s, w, hash, command));
      if HarmlessTurn(cfg, s, w, hash, command) then SameTurn(turn, plain) else turn.reply.Raised?
  {
    var (s1, p) := Prepare(cfg, s, hash, command);
    assert Prepare(Unhooked(cfg), s, hash, command) == (s1, p);
    if p.Ok? {
      FinishesCompare(cfg, s1, w, p.value);
    }
  }

  // ---- one session that is broken -----------------------------------------------------

  const CHAT: string := "chat"

  const PING: Json := Obj([Field("type", Str("function_call"))])

  const START: World := World([], [], [], [])

  /** A store that works, and one conversation in it. */
  function SampleStore(): StoreState {
    StoreState(map[CHAT := Conversation(1, "main_chat_openai")], map[], 0)
  }

  /** A provider that calls one tool, then has nothing to add. */
  function CallsOnce(): Connection {
    OpenAi((asked, calls) => Ok(OpenAiReply(false, if calls == [] then [PING] else [])))
  }

  /** A host whose tool always works, with an extractor that always gives the same answer. */
  function Answering(answer: HookReply): Host {
    Host((calls, name, args) => Ok(Null), Some((calls, name, result) => answer))
  }

  function SampleSession(answer: HookReply): Config {
    Config(CallsOnce(), Answering(answer), (j: Json) => Ok(j), (j: Json) => "", 1, None, Some(2), None,
      (op: nat) => false)
  }

  lemma SamplePrepares(answer: HookReply, command: string)
    ensures var prompt := BuildUserPrompt(OpenAiKind, command);
      var p := Prepare(SampleSession(answer), SampleStore(), CHAT, command).1;
      p == Ok(Prepared(1, OpenAiKind, prompt, [prompt], [prompt]))
  {
    var prompt := BuildUserPrompt(OpenAiKind, command);
    assert [] + [prompt] == [prompt] && [prompt][..0] == [];
  }

  lemma PingIsACall()
    ensures FirstCall([PING]) == Some(PING)
    ensures GetOrNull(PING, "name") == Null && GetOrNull(PING, "arguments") == Null
  {
    assert |"type"| == |"name"| && "type"[0] != "name"[0] && |"type"| != |"arguments"|;
    LookupSingle("type", Str("function_call"), "type");
    LookupSingle("type", Str("function_call"), "name");
    LookupSingle("type", Str("function_call"), "arguments");
  }

  /** Without the extractor: one call, its output, and a final reply that adds nothing. */
  lemma CallsOnceReturns(answer: HookReply, messages: seq<Json>)
    ensures var plain := Loop(CallsOnce(), Bare(Answering(answer)), messages, 2, None, START);
      && plain.response.Ok? && plain.world.calls == [Call(Null, Obj([]), Ok(Null))]
      && plain.messages == messages + [PING, CallOutput(PING, Null)]
  {
    var (conn, bare) := (CallsOnce(), Bare(Answering(answer)));
    PingIsACall();
    var first := RunRound(conn, bare, messages, START);
    assert first.More? && first.world.calls == [Call(Null, Obj([]), Ok(Null))];
    assert first.added == [PING, CallOutput(PING, Null)];
    var more := messages + first.added;
    var second := RunRound(conn, bare, more, first.world);
    assert second.Stop? && second.added == [] && second.world.calls == first.world.calls;
    assert more + [] == more;
    assert Loop(conn, bare, more, 1, Some(first.reply), first.world).messages == more;
  }

  /** That session's turn is harmless exactly when its one answer is. */
  lemma SampleHarmless(answer: HookReply, p: Prepared)
    ensures Harmless(SampleSession(answer), START, p) <==> Usable(answer) && Writable(RefsOf(answer))
  {
    var cfg := SampleSession(answer);
    CallsOnceReturns(answer, p.sent);
    var plain := PlainLoop(cfg, START, p);
    var calls := plain.world.calls;
    assert calls[..1] == calls && calls[..0] == [] && calls[0].result.Ok?;
    assert WellAnswered(cfg.host, calls, 0) <==> Usable(answer);
    assert CapturedRefs(cfg.host, calls, 0) == RefsOf(answer);
    assert NewMessages(p.sent, plain.messages) == [PING, CallOutput(PING, Null)];
  }

  /** Writing two rows without side-cars to a store that works. */
  lemma SampleReturns(answer: HookReply, s: StoreState, p: Prepared)
    requires p.kind == OpenAiKind
    ensures Finish(Unhooked(SampleSession(answer)), s, START, p).reply.Ok?
  {
    var cfg := Unhooked(SampleSession(answer));
    CallsOnceReturns(answer, p.sent);
    LoopsCompare(SampleSession(answer), START, p);
    var plain := PlainLoop(cfg, START, p);
    var messages := NewMessages(p.sent, plain.messages);
    WritesGoThrough(cfg, p.kind, s, p.id, messages, plain.world);
  }

  lemma {:induction false} WritesGoThrough(
    cfg: Config, kind: Kind, s: StoreState, id: int, messages: seq<Json>, w: World)
    requires NeverFails(cfg) && w.refs == [] && w.payload == []
    ensures PersistNew(cfg, kind, s, id, messages, w).1.Ok?
    decreases |messages|
  {
    if messages != [] {
      var row := MessageRow(cfg, kind, messages[0], messages[0]);
      WritesGoThrough(cfg, kind, Append(cfg.faults, s, id, row).0, id, messages[1..], w);
    }
  }

  /**
   One command to that session: without the extractor the turn returns; with it, if and only if the
   answer can be taken in and its references can be written.
   */
  lemma ExtractionCanBreakATurn(answer: HookReply, command: string)
    ensures var (cfg, s) := (SampleSession(answer), SampleStore());
      && RunTurn(Unhooked(cfg), s, START, CHAT, command).reply.Ok?
      && (RunTurn(cfg, s, START, CHAT, command).reply.Ok? <==> Usable(answer) && Writable(RefsOf(answer)))
  {
    var (cfg, s) := (SampleSession(answer), SampleStore());
    SamplePrepares(answer, command);
    TurnSurvivesExtraction(cfg, s, START, CHAT, command);
    var (s1, p) := Prepare(cfg, s, CHAT, command);
    assert Prepare(Unhooked(cfg), s, CHAT, command) == (s1, p);
    SampleHarmless(answer, p.value);
    SampleReturns(answer, s1, p.value);
  }

  /** Three answers that cannot be taken in: not a dict, references that cannot be iterated, a payload without pairs. */
  lemma UnusableAnswers()
    ensures !Usable(Answer(Str("x")))
    ensures !Usable(Answer(Obj([Field(REFS, Num(1))])))
    ensures !Usable(Answer(Obj([Field(LLM_PAYLOAD_FRAGMENT, Str("x"))])))
  {
    LookupSingle(REFS, Num(1), REFS);
    LookupSingle(LLM_PAYLOAD_FRAGMENT, Str("x"), LLM_PAYLOAD_FRAGMENT);
    var chars := Iterated(Str("x")).value;
    assert PairFrom(chars[0]).None?;
  }

  /** A reference without an `id`. */
  const INCOMPLETE: Json := Obj([Field("type", Str("user"))])

  lemma IncompleteIsNotWritable()
    ensures !Writable([INCOMPLETE])
  {
    var refs := [INCOMPLETE];
    assert |"type"| != |"id"|;
    LookupSingle("type", Str("user"), "id");
    assert New(refs, 0) && Get(refs[0], "id").None?;
  }

  /** An answer that can be taken in and still ends the turn, when its rows are written. */
  lemma IncompleteReferenceBreaksATurn(command: string)
    ensures var answer := Answer(Obj([Field(REFS, Arr([INCOMPLETE]))]));
      && Usable(answer)
      && RunTurn(SampleSession(answer), SampleStore(), START, CHAT, command).reply.Raised?
  {
    var answer := Answer(Obj([Field(REFS, Arr([INCOMPLETE]))]));
    assert |REFS| != |LLM_PAYLOAD_FRAGMENT|;
    LookupSingle(REFS, Arr([INCOMPLETE]), REFS);
    LookupSingle(REFS, Arr([INCOMPLETE]), LLM_PAYLOAD_FRAGMENT);
    assert RefsOf(answer) == [INCOMPLETE];
    IncompleteIsNotWritable();
    ExtractionCanBreakATurn(answer, command);
  }
}
