/** Two sessions, one per provider, run by the same policy: nobody outside can tell them apart. */
module SessionSimulation {
  import opened Results
  import opened JsonValues
  import opened HistoryBudget
  import opened JsonText
  import Replay
  import opened World
  import opened Rounds
  import opened Handlers
  import opened Gate
  import opened Metadata
  import opened Store
  import opened Session
  import opened Crash
  import opened Window
  import opened Simulation
  import opened Words
  import opened Refinement

  // ---- the two sessions -------------------------------------------------------

  /** A scrub as seen on entries, free of any wire format. */
  type Redactor = Entry -> Outcome<Entry>

  function RenderedIfOk(kind: Kind, e: Outcome<Entry>): Outcome<Json> {
    if e.Ok? then Ok(Rendered(kind, e.value)) else Raised
  }

  /** The scrub does to a rendered entry what `redact` does to the entry. */
  ghost predicate ScrubsAs(kind: Kind, scrub: Scrubber, redact: Redactor) {
    forall e {:trigger redact(e)} :: WfEntry(e) ==>
      && (redact(e).Ok? ==> WfEntry(redact(e).value))
      && scrub(Rendered(kind, e)) == RenderedIfOk(kind, redact(e))
  }

  /**
   The same policy, host, round cap and count window, no replayer, stores that fail at the same
   operations, and scrubs that do the same to what both wire formats say.
   */
  ghost predicate Twins(policy: Policy, redact: Redactor, a: Config, b: Config) {
    && WellFormedCalls(policy)
    && a.connection == Encoded(OpenAiKind, policy) && b.connection == Encoded(BedrockKind, policy)
    && a.host == b.host && a.Cap() == b.Cap()
    && a.maxHistory == b.maxHistory && a.replayer.None? && b.replayer.None?
    && a.faults == b.faults
    && ScrubsAs(OpenAiKind, a.scrub, redact) && ScrubsAs(BedrockKind, b.scrub, redact)
  }

  /** The same conversations, each under its own session's kind. */
  ghost predicate SameConversations(a: StoreState, b: StoreState) {
    && a.conversations.Keys == b.conversations.Keys
    && forall hash :: hash in a.conversations ==>
         && a.conversations[hash].id == b.conversations[hash].id
         && (KindNamed(a.conversations[hash].kind), KindNamed(b.conversations[hash].kind))
              in {(None, None), (Some(OpenAiKind), Some(BedrockKind))}
  }

  /** Stripped of side-cars both logs render one conversation, and name the same senders. */
  ghost predicate SameLog(o: seq<Row>, b: seq<Row>) {
    SameRendering(StripRows(o), StripRows(b)) && RowSenders(o) == RowSenders(b)
  }

  ghost predicate Alike(s: StoreState, t: StoreState) {
    && s.ops == t.ops && SameConversations(s, t)
    && forall id :: SameLog(Log(s, id), Log(t, id))
  }

  /** The messages a turn has before its budget: the window of the log, and the prompt. */
  function CandidateMessages(cfg: Config, kind: Kind, log: seq<Row>, command: string): seq<Json> {
    StripRows(LastN(log, cfg.maxHistory)) + [BuildUserPrompt(kind, command)]
  }

  function TurnCandidates(cfg: Config, s: StoreState, hash: string, command: string): seq<Json> {
    if !PromptStored(cfg, s, hash) then [] else
    var (id, kind) := (s.conversations[hash].id, KindNamed(s.conversations[hash].kind).value);
    CandidateMessages(cfg, kind, Log(s, id), command)
  }

  /** The budgets of both sides keep as many of them. */
  predicate SameCut(a: Config, b: Config, s: StoreState, t: StoreState, hash: string, command: string) {
    |Truncated(TurnCandidates(a, s, hash, command), a.maxTokens)|
      == |Truncated(TurnCandidates(b, t, hash, command), b.maxTokens)|
  }

  predicate WithinBudget(cfg: Config, messages: seq<Json>) {
    Active(cfg.maxTokens) ==> Cost(messages) <= cfg.maxTokens.value
  }

  /** Enough to know before a turn: on both sides everything fits. */
  predicate BothFit(a: Config, b: Config, s: StoreState, t: StoreState, hash: string, command: string) {
    WithinBudget(a, TurnCandidates(a, s, hash, command)) && WithinBudget(b, TurnCandidates(b, t, hash, command))
  }

  ghost predicate BothFitThroughout(
    a: Config, b: Config, s: StoreState, t: StoreState, w: World, v: World, commands: seq<Command>)
    decreases |commands|
  {
    commands != [] ==>
      && BothFit(a, b, s, t, commands[0].hash, commands[0].text)
      && var x := RunTurn(a, s, w, commands[0].hash, commands[0].text);
         var y := RunTurn(b, t, v, commands[0].hash, commands[0].text);
         BothFitThroughout(a, b, x.store, y.store, x.world, y.world, commands[1..])
  }

  /** The cuts agree on every turn of a run. */
  ghost predicate SameCuts(
    a: Config, b: Config, s: StoreState, t: StoreState, w: World, v: World, commands: seq<Command>)
    decreases |commands|
  {
    commands != [] ==>
      && SameCut(a, b, s, t, commands[0].hash, commands[0].text)
      && var x := RunTurn(a, s, w, commands[0].hash, commands[0].text);
         var y := RunTurn(b, t, v, commands[0].hash, commands[0].text);
         SameCuts(a, b, x.store, y.store, x.world, y.world, commands[1..])
  }

  // ---- rendered lists under windows and scrubs ----------------------------------

  lemma {:induction false} RenderSlice(kind: Kind, entries: seq<Entry>, i: nat)
    requires i <= |entries|
    ensures Render(kind, entries)[i..] == Render(kind, entries[i..])
    ensures Render(kind, entries)[..i] == Render(kind, entries[..i])
  {
  }

  lemma {:induction false} RenderFront(kind: Kind, first: Entry, rest: seq<Entry>)
    ensures Render(kind, [first] + rest) == [Rendered(kind, first)] + Render(kind, rest)
  {
  }

  function RedactAll(redact: Redactor, entries: seq<Entry>): Outcome<seq<Entry>> {
    if entries == [] then Ok([])
    else
      var first :- redact(entries[0]);
      var rest :- RedactAll(redact, entries[1..]);
      Ok([first] + rest)
  }

  function RedactHistory(redact: Redactor, entries: seq<Entry>): Outcome<seq<Entry>>
    requires entries != []
  {
    var head :- RedactAll(redact, entries[..|entries| - 1]);
    Ok(head + [entries[|entries| - 1]])
  }

  function RenderIfOk(kind: Kind, entries: Outcome<seq<Entry>>): Outcome<seq<Json>> {
    if entries.Ok? then Ok(Render(kind, entries.value)) else Raised
  }

  lemma {:induction false} ScrubAllRendered(kind: Kind, scrub: Scrubber, redact: Redactor, entries: seq<Entry>)
    requires ScrubsAs(kind, scrub, redact) && WfAll(entries)
    ensures ScrubAll(scrub, Render(kind, entries)) == RenderIfOk(kind, RedactAll(redact, entries))
    ensures RedactAll(redact, entries).Ok? ==> WfAll(RedactAll(redact, entries).value)
  {
    if entries != [] {
      ScrubAllRendered(kind, scrub, redact, entries[1..]);
      RenderSlice(kind, entries, 1);
      assert Render(kind, entries)[0] == Rendered(kind, entries[0]);
      var (first, rest) := (redact(entries[0]), RedactAll(redact, entries[1..]));
      assert scrub(Rendered(kind, entries[0])) == RenderedIfOk(kind, first);
      if first.Ok? && rest.Ok? {
        RenderFront(kind, first.value, rest.value);
      }
    }
  }

  /** A conversation scrubbed but for its last entry. */
  lemma {:induction false} LastEntryKept(kind: Kind, head: seq<Json>, redacted: seq<Entry>, last: Entry)
    requires head == Render(kind, redacted)
    ensures head + [Rendered(kind, last)] == Render(kind, redacted + [last])
  {
  }

  lemma {:induction false} ScrubHistoryRendered(kind: Kind, scrub: Scrubber, redact: Redactor, entries: seq<Entry>)
    requires ScrubsAs(kind, scrub, redact) && WfAll(entries) && entries != []
    ensures ScrubHistory(scrub, Render(kind, entries)) == RenderIfOk(kind, RedactHistory(redact, entries))
    ensures RedactHistory(redact, entries).Ok? ==> WfAll(RedactHistory(redact, entries).value)
  {
    var (messages, n) := (Render(kind, entries), |entries| - 1);
    RenderSlice(kind, entries, n);
    ScrubAllRendered(kind, scrub, redact, entries[..n]);
    var (head, heads) := (RedactAll(redact, entries[..n]), ScrubAll(scrub, messages[..n]));
    if head.Ok? {
      LastEntryKept(kind, heads.value, head.value, entries[n]);
    }
  }

  /** The entries a turn has before its budget: the window of the conversation, and the prompt. */
  function Candidates(cfg: Config, entries: seq<Entry>, command: string): seq<Entry> {
    LastN(entries, cfg.maxHistory) + [Prompted(command)]
  }

  lemma {:induction false} CandidatesRender(
    cfg: Config, kind: Kind, entries: seq<Entry>, log: seq<Row>, command: string)
    requires WfAll(entries) && StripRows(log) == Render(kind, entries)
    ensures CandidateMessages(cfg, kind, log, command) == Render(kind, Candidates(cfg, entries, command))
    ensures WfAll(Candidates(cfg, entries, command))
  {
    RecentIsSuffix(log, cfg.maxHistory);
    if cfg.maxHistory < |entries| {
      RenderSlice(kind, entries, |entries| - cfg.maxHistory);
    }
    LastEntryKept(kind, StripRows(LastN(log, cfg.maxHistory)), LastN(entries, cfg.maxHistory), Prompted(command));
  }

  lemma {:induction false} TruncatedRender(kind: Kind, entries: seq<Entry>, maxTokens: Option<int>)
    requires entries != []
    ensures var bounded := Truncated(Render(kind, entries), maxTokens);
      && 1 <= |bounded| <= |entries| && (!Active(maxTokens) ==> |bounded| == |entries|)
      && bounded == Render(kind, entries[|entries| - |bounded|..])
  {
    var messages := Render(kind, entries);
    if Active(maxTokens) {
      LongestFittingOptimal(messages, maxTokens.value);
    }
    RenderSlice(kind, entries, |entries| - |Truncated(messages, maxTokens)|);
  }

  /** What one side keeps of its log: the last `n` candidates, rendered. */
  lemma {:induction false} SideKeeps(cfg: Config, kind: Kind, entries: seq<Entry>, log: seq<Row>, command: string)
    returns (n: nat)
    requires WfAll(entries) && StripRows(log) == Render(kind, entries)
    ensures var all := Candidates(cfg, entries, command);
      var bounded := Truncated(CandidateMessages(cfg, kind, log, command), cfg.maxTokens);
      && n == |bounded| && 1 <= n <= |all| && (!Active(cfg.maxTokens) ==> n == |all|)
      && WfAll(all) && bounded == Render(kind, all[|all| - n..])
  {
    var all := Candidates(cfg, entries, command);
    CandidatesRender(cfg, kind, entries, log, command);
    TruncatedRender(kind, all, cfg.maxTokens);
    n := |Truncated(Render(kind, all), cfg.maxTokens)|;
  }

  /** Scrubbed for either provider, one conversation stays one, or neither is sent. */
  lemma {:induction false} ScrubsAlike(redact: Redactor, x: Scrubber, y: Scrubber, entries: seq<Entry>)
    requires ScrubsAs(OpenAiKind, x, redact) && ScrubsAs(BedrockKind, y, redact) && WfAll(entries) && entries != []
    ensures var o := ScrubHistory(x, Render(OpenAiKind, entries));
      var b := ScrubHistory(y, Render(BedrockKind, entries));
      (o.Ok? <==> b.Ok?) && (o.Ok? ==> SameRendering(o.value, b.value))
  {
    ScrubHistoryRendered(OpenAiKind, x, redact, entries);
    ScrubHistoryRendered(BedrockKind, y, redact, entries);
  }

  // ---- stores that stay alike -----------------------------------------------------

  lemma {:induction false} NoSidecars(fields: Dict)
    requires forall i :: 0 <= i < |fields| ==> fields[i].key !in PersistenceOnlyKeys()
    ensures Clean(Obj(fields))
  {
    LookupFinds(fields, META_KEY_REFS);
    LookupFinds(fields, META_KEY_LLM_PAYLOAD);
  }

  lemma {:induction false} RenderedIsClean(kind: Kind, e: Entry)
    ensures Rendered(kind, e).Obj? && Clean(Rendered(kind, e))
  {
    var fields := Rendered(kind, e).fields;
    assert "type"[0] != "refs"[0] && "name"[0] != "refs"[0] && "role"[1] != "refs"[1];
    assert forall i :: 0 <= i < |fields| ==>
      fields[i].key in {"type", "role", "name", "call_id", "arguments", "output", "content"};
    assert |"call_id"| != |"refs"| && |"arguments"| != |"refs"| && |"output"| != |"refs"| && |"content"| != |"refs"|;
    assert |"type"| != |"llm_payload"| && |"role"| != |"llm_payload"| && |"name"| != |"llm_payload"|;
    assert |"call_id"| != |"llm_payload"| && |"arguments"| != |"llm_payload"|;
    assert |"output"| != |"llm_payload"| && |"content"| != |"llm_payload"|;
    NoSidecars(fields);
  }

  lemma {:induction false} LogsGrow(o: seq<Row>, b: seq<Row>, x: Row, y: Row, e: Entry)
    requires SameLog(o, b) && WfEntry(e) && x.sender == y.sender
    requires StripRows([x]) == [Rendered(OpenAiKind, e)] && StripRows([y]) == [Rendered(BedrockKind, e)]
    ensures SameLog(o + [x], b + [y])
  {
    var entries :| WfAll(entries) && StripRows(o) == Render(OpenAiKind, entries)
      && StripRows(b) == Render(BedrockKind, entries);
    StripRowsSplits(o, [x]);
    StripRowsSplits(b, [y]);
    RowSendersSplit(o, [x]);
    RowSendersSplit(b, [y]);
    RenderConcat(OpenAiKind, entries, [e]);
    RenderConcat(BedrockKind, entries, [e]);
    assert RowSenders([x]) == RowSenders([y]) by {
      assert [x][1..] == [] && [y][1..] == [];
    }
    assert WfAll(entries + [e]);
  }

  lemma {:induction false} StoresGrow(
    s: StoreState, t: StoreState, s1: StoreState, t1: StoreState, id: int, x: Row, y: Row, e: Entry)
    requires Alike(s, t) && Grew(s, s1, id, [x]) && Grew(t, t1, id, [y]) && s1.ops == t1.ops
    requires WfEntry(e) && x.sender == y.sender
    requires StripRows([x]) == [Rendered(OpenAiKind, e)] && StripRows([y]) == [Rendered(BedrockKind, e)]
    ensures Alike(s1, t1)
  {
    forall other ensures SameLog(Log(s1, other), Log(t1, other)) {
      assert SameLog(Log(s, other), Log(t, other));
      if other == id {
        LogsGrow(Log(s, id), Log(t, id), x, y, e);
      } else {
        assert Log(s1, other) == Log(s, other) && Log(t1, other) == Log(t, other);
      }
    }
  }

  lemma {:induction false} TicksAlike(s: StoreState, t: StoreState, s1: StoreState, t1: StoreState)
    requires Alike(s, t) && s1.ops == t1.ops
    requires s1.conversations == s.conversations && s1.logs == s.logs
    requires t1.conversations == t.conversations && t1.logs == t.logs
    ensures Alike(s1, t1)
  {
    forall id ensures SameLog(Log(s1, id), Log(t1, id)) {
      assert SameLog(Log(s, id), Log(t, id));
    }
  }

  lemma {:induction false} RowStrips(cfg: Config, kind: Kind, e: Entry, refs: seq<Json>, payload: Dict)
    ensures var m := Rendered(kind, e);
      var meta := WithToolMetadata(m, refs, payload);
      && (meta.Ok? <==> (refs == [] && payload == []) || Deduped(refs, {}).Ok?)
      && (meta.Ok? ==> StripRows([MessageRow(cfg, kind, m, meta.value)]) == [m])
  {
    var m := Rendered(kind, e);
    var meta := WithToolMetadata(m, refs, payload);
    RenderedIsClean(kind, e);
    if meta.Ok? {
      AttachThenStrip(m, refs, payload);
      assert [MessageRow(cfg, kind, m, meta.value)][1..] == [];
    }
  }

  /** Both write loops stop at the same row, if they stop. */
  lemma {:induction false} PersistAlike(
    a: Config, b: Config, s: StoreState, t: StoreState, id: int, entries: seq<Entry>, w: World, v: World)
    requires a.faults == b.faults && Alike(s, t) && WfAll(entries) && w.refs == v.refs && w.payload == v.payload
    ensures var (s1, x) := PersistNew(a, OpenAiKind, s, id, Render(OpenAiKind, entries), w);
      var (t1, y) := PersistNew(b, BedrockKind, t, id, Render(BedrockKind, entries), v);
      x == y && Alike(s1, t1)
    decreases |entries|
  {
    if entries != [] {
      var e := entries[0];
      RowStrips(a, OpenAiKind, e, w.refs, w.payload);
      RowStrips(b, BedrockKind, e, w.refs, w.payload);
      RenderSlice(OpenAiKind, entries, 1);
      RenderSlice(BedrockKind, entries, 1);
      var (m, n) := (Rendered(OpenAiKind, e), Rendered(BedrockKind, e));
      var meta := WithToolMetadata(m, w.refs, w.payload);
      if meta.Ok? {
        var x := MessageRow(a, OpenAiKind, m, meta.value);
        var y := MessageRow(b, BedrockKind, n, WithToolMetadata(n, v.refs, v.payload).value);
        SameSenders(e);
        var (s1, t1) := (Append(a.faults, s, id, x).0, Append(b.faults, t, id, y).0);
        if a.faults(s.ops) {
          TicksAlike(s, t, s1, t1);
        } else {
          AppendGrows(a, s, id, x);
          AppendGrows(b, t, id, y);
          StoresGrow(s, t, s1, t1, id, x, y, e);
          PersistAlike(a, b, s1, t1, id, entries[1..], w, v);
        }
      }
    }
  }

  // ---- preparing -----------------------------------------------------------------

  /** What a turn would send, were nothing to fail before. */
  function Outgoing(cfg: Config, kind: Kind, s: StoreState, id: int, command: string): Outcome<seq<Json>> {
    ScrubHistory(cfg.scrub, Truncated(CandidateMessages(cfg, kind, Log(s, id), command), cfg.maxTokens))
  }

  /** A turn up to the model call, after the lookup: two more store operations, then the scrub. */
  lemma {:induction false} PrepareSteps(cfg: Config, s: StoreState, hash: string, command: string)
    requires cfg.replayer.None? && PromptStored(cfg, s, hash) && !cfg.faults(s.ops)
    ensures var (id, kind) := (s.conversations[hash].id, KindNamed(s.conversations[hash].kind).value);
      var (s1, p) := Prepare(cfg, s, hash, command);
      if cfg.faults(s.ops + 1) then p.Raised? && s1 == s.(ops := s.ops + 2)
      else
        var appended := Append(cfg.faults, s.(ops := s.ops + 2), id, TurnPrompt(cfg, s, hash, command));
        var sent := Outgoing(cfg, kind, s, id, command);
        && s1 == appended.0
        && (p.Ok? <==> appended.1.Ok? && sent.Ok?)
        && (p.Ok? ==> p.value.id == id && p.value.kind == kind && p.value.sent == sent.value)
  {
    var id := s.conversations[hash].id;
    var context := BuildHistoricalContext(cfg, Tick(s), hash, id);
    assert context.0 == s.(ops := s.ops + 2);
    assert Log(Tick(s), id) == Log(s, id);
  }

  /** Both sessions get equally far; if both reach the model they send one conversation. */
  ghost predicate PreparedAlike(p: Outcome<Prepared>, q: Outcome<Prepared>) {
    && (p.Ok? <==> q.Ok?)
    && (p.Ok? ==>
         && p.value.id == q.value.id && p.value.kind == OpenAiKind && q.value.kind == BedrockKind
         && SameRendering(p.value.sent, q.value.sent))
  }

  /** What both sides keep of logs that render one conversation: one and the same rest of it. */
  lemma {:induction false} KeptAlike(a: Config, b: Config, o: seq<Row>, e: seq<Row>, command: string)
    returns (kept: seq<Entry>)
    requires SameRendering(StripRows(o), StripRows(e)) && a.maxHistory == b.maxHistory
    requires |Truncated(CandidateMessages(a, OpenAiKind, o, command), a.maxTokens)|
      == |Truncated(CandidateMessages(b, BedrockKind, e, command), b.maxTokens)|
    ensures WfAll(kept) && kept != []
    ensures Truncated(CandidateMessages(a, OpenAiKind, o, command), a.maxTokens) == Render(OpenAiKind, kept)
    ensures Truncated(CandidateMessages(b, BedrockKind, e, command), b.maxTokens) == Render(BedrockKind, kept)
  {
    var entries :| WfAll(entries) && StripRows(o) == Render(OpenAiKind, entries)
      && StripRows(e) == Render(BedrockKind, entries);
    var n := SideKeeps(a, OpenAiKind, entries, o, command);
    var m := SideKeeps(b, BedrockKind, entries, e, command);
    var all := Candidates(a, entries, command);
    assert all == Candidates(b, entries, command) && n == m;
    kept := all[|all| - n..];
  }

  ghost predicate OutgoingAlike(x: Outcome<seq<Json>>, y: Outcome<seq<Json>>) {
    (x.Ok? <==> y.Ok?) && (x.Ok? ==> SameRendering(x.value, y.value))
  }

  lemma {:induction false} SentAlike(
    policy: Policy, redact: Redactor, a: Config, b: Config, s: StoreState, t: StoreState, hash: string, command: string)
    requires Twins(policy, redact, a, b) && Alike(s, t) && SameCut(a, b, s, t, hash, command)
    requires PromptStored(a, s, hash) && PromptStored(b, t, hash)
    ensures var id := s.conversations[hash].id;
      OutgoingAlike(Outgoing(a, OpenAiKind, s, id, command), Outgoing(b, BedrockKind, t, id, command))
  {
    var id := s.conversations[hash].id;
    assert SameLog(Log(s, id), Log(t, id));
    var kept := KeptAlike(a, b, Log(s, id), Log(t, id), command);
    ScrubsAlike(redact, a.scrub, b.scrub, kept);
  }

  lemma {:induction false} PromptsAlike(
    a: Config, b: Config, s: StoreState, t: StoreState, hash: string, command: string)
    requires SameConversations(s, t) && PromptStored(a, s, hash)
    ensures var (x, y) := (TurnPrompt(a, s, hash, command), TurnPrompt(b, t, hash, command));
      && PromptStored(b, t, hash) && x.sender == y.sender
      && StripRows([x]) == [Rendered(OpenAiKind, Prompted(command))]
      && StripRows([y]) == [Rendered(BedrockKind, Prompted(command))]
  {
    PromptRowStrips(a, OpenAiKind, command);
    PromptRowStrips(b, BedrockKind, command);
  }

  /** Both prompts are stored, or neither is. */
  lemma {:induction false} PromptWritesAlike(
    a: Config, b: Config, s: StoreState, t: StoreState, id: int, x: Row, y: Row, command: string)
    requires a.faults == b.faults && Alike(s, t) && x.sender == y.sender
    requires StripRows([x]) == [Rendered(OpenAiKind, Prompted(command))]
    requires StripRows([y]) == [Rendered(BedrockKind, Prompted(command))]
    ensures var ((s1, p), (t1, q)) := (Append(a.faults, s, id, x), Append(b.faults, t, id, y));
      Alike(s1, t1) && p == q
  {
    var (s1, t1) := (Append(a.faults, s, id, x).0, Append(b.faults, t, id, y).0);
    if a.faults(s.ops) {
      TicksAlike(s, t, s1, t1);
    } else {
      AppendGrows(a, s, id, x);
      AppendGrows(b, t, id, y);
      StoresGrow(s, t, s1, t1, id, x, y, Prompted(command));
    }
  }

  /** The store after the read of the history and, if that works, the write of the prompt. */
  function AfterPrompt(cfg: Config, s: StoreState, id: int, row: Row): StoreState {
    var read := s.(ops := s.ops + 2);
    if cfg.faults(s.ops + 1) then read else Append(cfg.faults, read, id, row).0
  }

  lemma {:induction false} PreparedStores(cfg: Config, s: StoreState, hash: string, command: string)
    requires cfg.replayer.None? && PromptStored(cfg, s, hash) && !cfg.faults(s.ops)
    ensures Prepare(cfg, s, hash, command).0
      == AfterPrompt(cfg, s, s.conversations[hash].id, TurnPrompt(cfg, s, hash, command))
  {
    PrepareSteps(cfg, s, hash, command);
  }

  lemma {:induction false} PreparedStoresAlike(
    a: Config, b: Config, s: StoreState, t: StoreState, id: int, x: Row, y: Row, command: string)
    requires a.faults == b.faults && Alike(s, t) && x.sender == y.sender
    requires StripRows([x]) == [Rendered(OpenAiKind, Prompted(command))]
    requires StripRows([y]) == [Rendered(BedrockKind, Prompted(command))]
    ensures Alike(AfterPrompt(a, s, id, x), AfterPrompt(b, t, id, y))
  {
    var (s2, t2) := (s.(ops := s.ops + 2), t.(ops := t.ops + 2));
    TicksAlike(s, t, s2, t2);
    PromptWritesAlike(a, b, s2, t2, id, x, y, command);
  }

  /** A turn reaches the model when its store operations and its scrub go through. */
  ghost predicate Reaches(
    cfg: Config, kind: Kind, s: StoreState, id: int, sent: Outcome<seq<Json>>, p: Outcome<Prepared>)
  {
    && (p.Ok? <==> !cfg.faults(s.ops + 1) && !cfg.faults(s.ops + 2) && sent.Ok?)
    && (p.Ok? ==> p.value.id == id && p.value.kind == kind && p.value.sent == sent.value)
  }

  lemma {:induction false} PreparedSends(cfg: Config, s: StoreState, hash: string, command: string)
    requires cfg.replayer.None? && PromptStored(cfg, s, hash) && !cfg.faults(s.ops)
    ensures var (id, kind) := (s.conversations[hash].id, KindNamed(s.conversations[hash].kind).value);
      Reaches(cfg, kind, s, id, Outgoing(cfg, kind, s, id, command), Prepare(cfg, s, hash, command).1)
  {
    PrepareSteps(cfg, s, hash, command);
  }

  lemma {:induction false} PreparedListsAlike(
    a: Config, b: Config, s: StoreState, t: StoreState, id: int, x: Outcome<seq<Json>>, y: Outcome<seq<Json>>,
    p: Outcome<Prepared>, q: Outcome<Prepared>)
    requires a.faults == b.faults && s.ops == t.ops && OutgoingAlike(x, y)
    requires Reaches(a, OpenAiKind, s, id, x, p) && Reaches(b, BedrockKind, t, id, y, q)
    ensures PreparedAlike(p, q)
  {
  }

  lemma {:induction false} PrepareAlike(
    policy: Policy, redact: Redactor, a: Config, b: Config, s: StoreState, t: StoreState, hash: string, command: string)
    requires Twins(policy, redact, a, b) && Alike(s, t) && SameCut(a, b, s, t, hash, command)
    ensures Alike(Prepare(a, s, hash, command).0, Prepare(b, t, hash, command).0)
    ensures PreparedAlike(Prepare(a, s, hash, command).1, Prepare(b, t, hash, command).1)
  {
    if a.faults(s.ops) || !PromptStored(a, s, hash) {
      TicksAlike(s, t, Prepare(a, s, hash, command).0, Prepare(b, t, hash, command).0);
    } else {
      PromptsAlike(a, b, s, t, hash, command);
      SentAlike(policy, redact, a, b, s, t, hash, command);
      PreparedStores(a, s, hash, command);
      PreparedStores(b, t, hash, command);
      PreparedSends(a, s, hash, command);
      PreparedSends(b, t, hash, command);
      var id := s.conversations[hash].id;
      PreparedStoresAlike(
        a, b, s, t, id, TurnPrompt(a, s, hash, command), TurnPrompt(b, t, hash, command), command);
      PreparedListsAlike(a, b, s, t, id,
        Outgoing(a, OpenAiKind, s, id, command), Outgoing(b, BedrockKind, t, id, command),
        Prepare(a, s, hash, command).1, Prepare(b, t, hash, command).1);
    }
  }

  // ---- when both budgets cut alike -----------------------------------------------------

  lemma {:induction false} KeptIsSent(cfg: Config, s: StoreState, hash: string, command: string)
    requires cfg.replayer.None? && Prepare(cfg, s, hash, command).1.Ok?
    ensures |Prepare(cfg, s, hash, command).1.value.sent|
      == |Truncated(TurnCandidates(cfg, s, hash, command), cfg.maxTokens)|
  {
    var p := Prepare(cfg, s, hash, command).1.value;
    PreparedFromLog(cfg, s, hash, command);
    var stored := PrepareGrows(cfg, s, hash, command);
    assert p.bounded == Truncated(TurnCandidates(cfg, s, hash, command), cfg.maxTokens);
    if p.bounded != [] {
      ScrubHistoryShape(cfg.scrub, p.bounded);
    }
  }

  /** The condition is exact: two turns that reach the model send one conversation if and only if they cut alike. */
  lemma {:induction false} SameRequestMeansSameCut(
    policy: Policy, redact: Redactor, a: Config, b: Config, s: StoreState, t: StoreState, hash: string, command: string)
    requires Twins(policy, redact, a, b) && Alike(s, t)
    requires Prepare(a, s, hash, command).1.Ok? && Prepare(b, t, hash, command).1.Ok?
    ensures SameRendering(Prepare(a, s, hash, command).1.value.sent, Prepare(b, t, hash, command).1.value.sent)
      <==> SameCut(a, b, s, t, hash, command)
  {
    KeptIsSent(a, s, hash, command);
    KeptIsSent(b, t, hash, command);
    if SameCut(a, b, s, t, hash, command) {
      PrepareAlike(policy, redact, a, b, s, t, hash, command);
    }
  }

  lemma {:induction false} FittingKeepsAll(cfg: Config, messages: seq<Json>)
    requires WithinBudget(cfg, messages)
    ensures Truncated(messages, cfg.maxTokens) == messages
  {
  }

  lemma {:induction false} FittingCutsAlike(
    a: Config, b: Config, s: StoreState, t: StoreState, hash: string, command: string)
    requires a.maxHistory == b.maxHistory && Alike(s, t) && BothFit(a, b, s, t, hash, command)
    ensures SameCut(a, b, s, t, hash, command)
  {
    FittingKeepsAll(a, TurnCandidates(a, s, hash, command));
    FittingKeepsAll(b, TurnCandidates(b, t, hash, command));
    if PromptStored(a, s, hash) {
      var id := s.conversations[hash].id;
      assert SameLog(Log(s, id), Log(t, id));
      RecentIsSuffix(Log(s, id), a.maxHistory);
      RecentIsSuffix(Log(t, id), b.maxHistory);
    }
  }

  // ---- finishing ------------------------------------------------------------------

  lemma {:induction false} BlocksEnterUnchanged(role: string, blocks: seq<Json>)
    ensures var m := Obj([Field("role", Str(role)), Field("content", Arr(blocks))]); EnsureContentBlocks(m) == m
  {
    assert |"role"| != |"content"|;
    LookupPair(Field("role", Str(role)), Field("content", Arr(blocks)), "content");
  }

  /** Every rendered Bedrock message has block content. */
  lemma {:induction false} EntryEntersUnchanged(e: Entry)
    ensures EnsureContentBlocks(BedrockEntry(e)) == BedrockEntry(e)
  {
    match e
    case Prompted(text) => BlocksEnterUnchanged("user", [TextBlock(text)]);
    case Called(preamble, name, args, id) => BlocksEnterUnchanged("assistant", CallBlocks(preamble, name, args, id));
    case Answered(id, text) => BlocksEnterUnchanged("user", [Obj([Field("toolResult", ResultRecord(id, text))])]);
    case Said(text) => BlocksEnterUnchanged("assistant", [TextBlock(text)]);
  }

  lemma {:induction false} EntersAsRendered(entries: seq<Entry>)
    ensures EnsureAll(Render(BedrockKind, entries)) == Render(BedrockKind, entries)
  {
    var messages := Render(BedrockKind, entries);
    forall i | 0 <= i < |entries| ensures EnsureContentBlocks(messages[i]) == messages[i] {
      EntryEntersUnchanged(entries[i]);
    }
  }

  lemma {:induction false} SameText(final: Option<Move>)
    ensures ExtractResponseText(OpenAiKind, LastResponse(OpenAiKind, final))
      == ExtractResponseText(BedrockKind, LastResponse(BedrockKind, final))
  {
    if final.Some? && !final.value.Fail? {
      SameResponseText(final.value);
    }
  }

  /** Both loops of a turn, from one conversation. */
  lemma {:induction false} ChatsAlike(
    policy: Policy, redact: Redactor, a: Config, b: Config, before: seq<Entry>, w: World, v: World)
    returns (added: seq<Entry>, final: Option<Move>)
    requires Twins(policy, redact, a, b) && SameWorlds(w, v) && WfAll(before)
    ensures var (o, e) := (Render(OpenAiKind, before), Render(BedrockKind, before));
      var x := ChatWithTools(a.connection, a.host, o, a.Cap(), StartTurn(w));
      var y := ChatWithTools(b.connection, b.host, e, b.Cap(), StartTurn(v));
      && SameWorlds(x.world, y.world) && (x.response.Ok? <==> y.response.Ok?) && WfAll(added)
      && (x.response.Ok? ==>
           && NewMessages(o, x.messages) == Render(OpenAiKind, added)
           && NewMessages(e, y.messages) == Render(BedrockKind, added)
           && x.response.value == LastResponse(OpenAiKind, final)
           && y.response.value == LastResponse(BedrockKind, final))
  {
    EntersAsRendered(before);
    var all;
    all, final := CrossProviderSimulation(policy, a.host, before, a.Cap(), None, StartTurn(w), StartTurn(v));
    added := [];
    if PolicyLoop(OpenAiKind, policy, a.host, before, a.Cap(), None, StartTurn(w)).response.Ok? {
      added := all[|before|..];
      RenderSlice(OpenAiKind, all, |before|);
      RenderSlice(BedrockKind, all, |before|);
    }
  }

  /** From the model call on, both sessions answer alike and store alike. */
  lemma {:induction false} FinishAlike(
    policy: Policy, redact: Redactor, a: Config, b: Config, s: StoreState, t: StoreState, w: World, v: World,
    p: Prepared, q: Prepared)
    requires Twins(policy, redact, a, b) && Alike(s, t) && SameWorlds(w, v) && PreparedAlike(Ok(p), Ok(q))
    ensures var (x, y) := (Finish(a, s, w, p), Finish(b, t, v, q));
      x.reply == y.reply && SameWorlds(x.world, y.world) && Alike(x.store, y.store)
  {
    var before :| WfAll(before) && p.sent == Render(OpenAiKind, before) && q.sent == Render(BedrockKind, before);
    var added, final := ChatsAlike(policy, redact, a, b, before, w, v);
    var x := ChatWithTools(a.connection, a.host, p.sent, a.Cap(), StartTurn(w));
    var y := ChatWithTools(b.connection, b.host, q.sent, b.Cap(), StartTurn(v));
    if x.response.Ok? {
      PersistAlike(a, b, s, t, p.id, added, x.world, y.world);
      SameText(final);
    }
  }

  // ---- turns and runs ---------------------------------------------------------------------

  lemma {:induction false} TurnsAlike(
    policy: Policy, redact: Redactor, a: Config, b: Config, s: StoreState, t: StoreState, w: World, v: World,
    hash: string, command: string)
    requires Twins(policy, redact, a, b) && Alike(s, t) && SameWorlds(w, v) && SameCut(a, b, s, t, hash, command)
    ensures var (x, y) := (RunTurn(a, s, w, hash, command), RunTurn(b, t, v, hash, command));
      x.reply == y.reply && SameWorlds(x.world, y.world) && Alike(x.store, y.store)
  {
    PrepareAlike(policy, redact, a, b, s, t, hash, command);
    var ((s1, p), (t1, q)) := (Prepare(a, s, hash, command), Prepare(b, t, hash, command));
    if p.Ok? {
      FinishAlike(policy, redact, a, b, s1, t1, w, v, p.value, q.value);
    }
  }

  /**
   Over every sequence of commands, an OpenAI session and a Bedrock session driven by one policy,
   which reads all it is sent, return the same replies, make the same host calls with the same
   results, send in every request one and the same conversation in their own format, and keep logs
   that say the same under the same senders; and they fail together where the store, a scrub, a
   tool or the provider fails. The budgets keep as many messages on both sides, which they do while
   everything fits; where they do not, the requests differ.
   */
  lemma {:induction false} ProvidersAreInterchangeable(
    policy: Policy, redact: Redactor, a: Config, b: Config, s: StoreState, t: StoreState, w: World, v: World,
    commands: seq<Command>)
    requires Twins(policy, redact, a, b) && Alike(s, t) && SameWorlds(w, v) && SameCuts(a, b, s, t, w, v, commands)
    ensures var (x, y) := (Run(a, s, w, commands), Run(b, t, v, commands));
      x.replies == y.replies && SameWorlds(x.world, y.world) && Alike(x.store, y.store)
    decreases |commands|
  {
    if commands != [] {
      var (hash, text) := (commands[0].hash, commands[0].text);
      TurnsAlike(policy, redact, a, b, s, t, w, v, hash, text);
      var (x, y) := (RunTurn(a, s, w, hash, text), RunTurn(b, t, v, hash, text));
      ProvidersAreInterchangeable(policy, redact, a, b, x.store, y.store, x.world, y.world, commands[1..]);
    }
  }

  lemma {:induction false} FittingRunsCutAlike(
    policy: Policy, redact: Redactor, a: Config, b: Config, s: StoreState, t: StoreState, w: World, v: World,
    commands: seq<Command>)
    requires Twins(policy, redact, a, b) && Alike(s, t) && SameWorlds(w, v)
    requires BothFitThroughout(a, b, s, t, w, v, commands)
    ensures SameCuts(a, b, s, t, w, v, commands)
    decreases |commands|
  {
    if commands != [] {
      var (hash, text) := (commands[0].hash, commands[0].text);
      FittingCutsAlike(a, b, s, t, hash, text);
      TurnsAlike(policy, redact, a, b, s, t, w, v, hash, text);
      var (x, y) := (RunTurn(a, s, w, hash, text), RunTurn(b, t, v, hash, text));
      FittingRunsCutAlike(policy, redact, a, b, x.store, y.store, x.world, y.world, commands[1..]);
    }
  }

  /** So the sessions are interchangeable while everything fits, whatever the two budgets are. */
  lemma {:induction false} WithinBudgets(
    policy: Policy, redact: Redactor, a: Config, b: Config, s: StoreState, t: StoreState, w: World, v: World,
    commands: seq<Command>)
    requires Twins(policy, redact, a, b) && Alike(s, t) && SameWorlds(w, v)
    requires BothFitThroughout(a, b, s, t, w, v, commands)
    ensures var (x, y) := (Run(a, s, w, commands), Run(b, t, v, commands));
      x.replies == y.replies && SameWorlds(x.world, y.world) && Alike(x.store, y.store)
  {
    FittingRunsCutAlike(policy, redact, a, b, s, t, w, v, commands);
    ProvidersAreInterchangeable(policy, redact, a, b, s, t, w, v, commands);
  }

  /** With the budgets off nothing about the run has to be known beforehand. */
  lemma {:induction false} WithoutBudgets(
    policy: Policy, redact: Redactor, a: Config, b: Config, s: StoreState, t: StoreState, w: World, v: World,
    commands: seq<Command>)
    requires Twins(policy, redact, a, b) && Alike(s, t) && SameWorlds(w, v)
    requires !Active(a.maxTokens) && !Active(b.maxTokens)
    ensures var (x, y) := (Run(a, s, w, commands), Run(b, t, v, commands));
      x.replies == y.replies && SameWorlds(x.world, y.world) && Alike(x.store, y.store)
  {
    BudgetsOffFit(a, b, s, t, w, v, commands);
    WithinBudgets(policy, redact, a, b, s, t, w, v, commands);
  }

  lemma {:induction false} BudgetsOffFit(
    a: Config, b: Config, s: StoreState, t: StoreState, w: World, v: World, commands: seq<Command>)
    requires !Active(a.maxTokens) && !Active(b.maxTokens)
    ensures BothFitThroughout(a, b, s, t, w, v, commands)
    decreases |commands|
  {
    if commands != [] {
      var x := RunTurn(a, s, w, commands[0].hash, commands[0].text);
      var y := RunTurn(b, t, v, commands[0].hash, commands[0].text);
      BudgetsOffFit(a, b, x.store, y.store, x.world, y.world, commands[1..]);
    }
  }

  // ---- one budget is not one cut ------------------------------------------------------------

  lemma {:induction false} RoleAndContent(role: string, x: Json)
    ensures |Dumps(Obj([Field("role", Str(role)), Field("content", x)]), false)|
      == |StringText("role", false)| + |StringText(role, false)| + |StringText("content", false)|
         + |Dumps(x, false)| + 8
  {
    var fields := [Field("role", Str(role)), Field("content", x)];
    assert fields[1..] == [Field("content", x)];
    assert FieldsText(fields[1..], false) == StringText("content", false) + (": " + (Dumps(x, false) + "}"));
    assert FieldsText(fields, false) ==
      StringText("role", false) + (": " + (StringText(role, false) + (", " + FieldsText(fields[1..], false))));
  }

  lemma {:induction false} TextBlockLength(text: string)
    ensures |Dumps(Arr([TextBlock(text)]), false)| == |Dumps(Str(text), false)| + 12
  {
    var field := Field("text", Str(text));
    Replay.PlainIsUnescaped("text");
    assert FieldsText([field], false) == StringText("text", false) + (": " + (Dumps(Str(text), false) + "}"));
    assert ItemsText([TextBlock(text)], false) == Dumps(TextBlock(text), false) + "]";
  }

  lemma {:induction false} PromptCosts(command: string)
    ensures var (o, b) := (BuildUserPrompt(OpenAiKind, command), BuildUserPrompt(BedrockKind, command));
      EstimateTokens(b) == EstimateTokens(o) + 3
  {
    RoleAndContent("user", Str(command));
    RoleAndContent("user", Arr([TextBlock(command)]));
    TextBlockLength(command);
  }

  lemma {:induction false} CostOfTwo(x: Json, y: Json)
    ensures Cost([x, y]) == EstimateTokens(x) + EstimateTokens(y)
  {
    assert [x, y][1..] == [y] && [y][1..] == [];
    assert Cost([y]) == EstimateTokens(y) + Cost([]);
  }

  /** The same messages cost more in Bedrock's format, so one budget can keep fewer of them. */
  lemma {:induction false} SameBudgetCutsApart(entries: seq<Entry>, budget: int)
    requires |entries| == 2 && entries[0].Prompted? && entries[1].Prompted?
    requires budget == Cost(Render(OpenAiKind, entries))
    ensures |Truncated(Render(OpenAiKind, entries), Some(budget))| == 2
    ensures |Truncated(Render(BedrockKind, entries), Some(budget))| == 1
  {
    var (o, b) := (Render(OpenAiKind, entries), Render(BedrockKind, entries));
    PromptCosts(entries[0].text);
    PromptCosts(entries[1].text);
    assert o == [o[0], o[1]] && b == [b[0], b[1]];
    CostOfTwo(o[0], o[1]);
    CostOfTwo(b[0], b[1]);
    assert budget < Cost(b) && !o[0].Null?;
    assert LongestFitting(b, budget) == LongestFitting(b[1..], budget) == b[1..];
  }
}
