/** The gate seen from the store: every tool output any run ever logs has crossed it. */
module GatedRuns {
  import opened Results
  import opened JsonValues
  import opened World
  import opened Rounds
  import opened Handlers
  import opened Outputs
  import opened Gate
  import opened Metadata
  import opened Store
  import opened Session
  import opened Crash
  import opened Runs

  /** A session whose host sends every tool call through `run_tool`; its hook, if any, is free. */
  ghost predicate Gated(tools: GatedTools, cfg: Config) {
    cfg.host == GatedHost(tools, cfg.host.hook) && NoProviderResults(cfg.connection)
  }

  // ---- the outputs of one turn ------------------------------------------------

  ghost predicate RowsFromCalls(kind: Kind, rows: seq<Row>, calls: seq<Call>, start: nat) {
    forall i :: 0 <= i < |rows| ==> FromCalls(kind, calls, start, rows[i].meta)
  }

  lemma {:induction false} StripKeepsOutputs(kind: Kind, m: Json, part: Json)
    ensures IsOutput(kind, StripPersistenceKeys(m), part) <==> IsOutput(kind, m, part)
  {
    assert "type"[0] != "refs"[0] && |"output"| != |"refs"| && |"content"| != |"refs"|;
    assert |"type"| != |"llm_payload"| && |"output"| != |"llm_payload"| && |"content"| != |"llm_payload"|;
    StripKeepsOtherKeys(m, "type");
    StripKeepsOtherKeys(m, "output");
    StripKeepsOtherKeys(m, "content");
    var stripped := StripPersistenceKeys(m);
    assert Blocks(stripped) == Blocks(m);
  }

  /** A row shows the outputs of its message, with or without side-cars. */
  lemma {:induction false} RowKeepsOutputs(
    kind: Kind, message: Json, w: World, meta: Json, calls: seq<Call>, start: nat)
    requires WithToolMetadata(message, w.refs, w.payload) == Ok(meta) && FromCalls(kind, calls, start, message)
    ensures FromCalls(kind, calls, start, meta)
  {
    StripIgnoresSidecars(message, w.refs, w.payload);
    forall part | IsOutput(kind, meta, part) ensures FramesACall(kind, part, calls, start) {
      StripKeepsOutputs(kind, meta, part);
      StripKeepsOutputs(kind, message, part);
    }
  }

  lemma {:induction false} PromptHasNoOutput(kind: Kind, handler: Kind, command: string, part: Json)
    ensures !IsOutput(kind, BuildUserPrompt(handler, command), part)
  {
    PromptFields(handler, command);
    assert |"text"| != |"toolResult"|;
    LookupSingle("text", Str(command), "toolResult");
  }

  lemma {:induction false} FinishRowsFromCalls(cfg: Config, s: StoreState, w: World, p: Prepared)
    requires NoProviderResults(cfg.connection)
    ensures var calls := Finish(cfg, s, w, p).world.calls;
      && w.calls <= calls && CallsMade(cfg.host, calls, |w.calls|)
      && RowsFromCalls(KindOf(cfg.connection), FinishRows(cfg, w, p), calls, |w.calls|)
  {
    var kind := KindOf(cfg.connection);
    var entered := Entered(cfg.connection, p.sent);
    LoopOutputs(cfg.connection, cfg.host, entered, cfg.Cap(), None, StartTurn(w), |w.calls|);
    var loop := ChatWithTools(cfg.connection, cfg.host, p.sent, cfg.Cap(), StartTurn(w));
    if loop.response.Ok? {
      var messages := NewMessages(p.sent, loop.messages);
      NewRowsAre(cfg, p.kind, messages, loop.world);
      var rows := FinishRows(cfg, w, p);
      forall i | 0 <= i < |rows| ensures FromCalls(kind, loop.world.calls, |w.calls|, rows[i].meta) {
        assert messages[i] == loop.messages[|p.sent| + i];
        RowKeepsOutputs(kind, messages[i], loop.world, rows[i].meta, loop.world.calls, |w.calls|);
      }
    }
  }

  // ---- runs -------------------------------------------------------------------------

  /** The rows added since `s` carry outputs of calls made from `start` on only. */
  ghost predicate NewOutputsFromCalls(kind: Kind, s: StoreState, t: StoreState, calls: seq<Call>, start: nat) {
    forall id :: Log(s, id) <= Log(t, id) && RowsFromCalls(kind, Log(t, id)[|Log(s, id)|..], calls, start)
  }

  lemma {:induction false} TurnOutputs(cfg: Config, s: StoreState, w: World, hash: string, command: string)
    requires NoProviderResults(cfg.connection)
    ensures var turn := RunTurn(cfg, s, w, hash, command);
      && w.calls <= turn.world.calls && CallsMade(cfg.host, turn.world.calls, |w.calls|)
      && NewOutputsFromCalls(KindOf(cfg.connection), s, turn.store, turn.world.calls, |w.calls|)
  {
    var kind := KindOf(cfg.connection);
    var turn := RunTurn(cfg, s, w, hash, command);
    var (s1, p) := Prepare(cfg, s, hash, command);
    if p.Ok? {
      FinishRowsFromCalls(cfg, s1, w, p.value);
    }
    if hash in s.conversations {
      var k := StoredByTurn(cfg, s, w, hash, command);
      var row := TurnPrompt(cfg, s, hash, command);
      forall part ensures !IsOutput(kind, row.meta, part) {
        PromptHasNoOutput(kind, OpenAiKind, command, part);
        PromptHasNoOutput(kind, BedrockKind, command, part);
      }
      GrownOutputs(kind, s, turn.store, s.conversations[hash].id,
        AttemptedRows(cfg, s, w, hash, command)[..k], turn.world.calls, |w.calls|);
    } else {
      var k := CrashConsistency(cfg, s, w, hash, command);
      assert forall id :: Log(turn.store, id) == Log(s, id);
    }
  }

  lemma {:induction false} GrownOutputs(
    kind: Kind, s: StoreState, t: StoreState, id: int, rows: seq<Row>, calls: seq<Call>, start: nat)
    requires Grew(s, t, id, rows) && RowsFromCalls(kind, rows, calls, start)
    ensures NewOutputsFromCalls(kind, s, t, calls, start)
  {
    forall other
      ensures Log(s, other) <= Log(t, other) && RowsFromCalls(kind, Log(t, other)[|Log(s, other)|..], calls, start)
    {
      if other == id {
        assert Log(t, id)[|Log(s, id)|..] == rows;
      } else {
        assert Log(t, other) == Log(s, other);
      }
    }
  }

  lemma {:induction false} OutputsAddUp(
    kind: Kind, s: StoreState, t: StoreState, u: StoreState, calls: seq<Call>, more: seq<Call>, start: nat)
    requires start <= |calls| && calls <= more
    requires NewOutputsFromCalls(kind, s, t, calls, start) && NewOutputsFromCalls(kind, t, u, more, |calls|)
    ensures NewOutputsFromCalls(kind, s, u, more, start)
  {
    forall id
      ensures Log(s, id) <= Log(u, id) && RowsFromCalls(kind, Log(u, id)[|Log(s, id)|..], more, start)
    {
      var (old_, mid, new_) := (Log(s, id), Log(t, id), Log(u, id));
      assert old_ <= mid <= new_;
      forall i | 0 <= i < |new_[|old_|..]| ensures FromCalls(kind, more, start, new_[|old_|..][i].meta) {
        var m := new_[|old_|..][i].meta;
        if |old_| + i < |mid| {
          assert m == mid[|old_|..][i].meta;
          FromMoreCalls(kind, calls, more, start, start, m);
        } else {
          assert m == new_[|mid|..][|old_| + i - |mid|].meta;
          FromMoreCalls(kind, more, more, start, |calls|, m);
        }
      }
    }
  }

  lemma {:induction false} CallsAddUp(host: Host, calls: seq<Call>, more: seq<Call>, start: nat)
    requires CallsMade(host, calls, start) && calls <= more && CallsMade(host, more, |calls|)
    ensures CallsMade(host, more, start)
  {
    forall k | start <= k < |more| ensures more[k].result == host.tool(more[..k], more[k].name, more[k].args) {
      if k < |calls| {
        assert calls[..k] == more[..k] && calls[k] == more[k];
      }
    }
  }

  /** For any host: every tool output a run logs frames what the host's tool gave in a call of that run. */
  lemma {:induction false} RunOutputs(cfg: Config, s: StoreState, w: World, commands: seq<Command>)
    requires NoProviderResults(cfg.connection)
    ensures var run := Run(cfg, s, w, commands);
      && w.calls <= run.world.calls && CallsMade(cfg.host, run.world.calls, |w.calls|)
      && NewOutputsFromCalls(KindOf(cfg.connection), s, run.store, run.world.calls, |w.calls|)
    decreases |commands|
  {
    if commands == [] {
      assert forall id :: Log(s, id)[|Log(s, id)|..] == [];
    } else {
      TurnOutputs(cfg, s, w, commands[0].hash, commands[0].text);
      var turn := RunTurn(cfg, s, w, commands[0].hash, commands[0].text);
      RunOutputs(cfg, turn.store, turn.world, commands[1..]);
      var run := Run(cfg, s, w, commands);
      CallsAddUp(cfg.host, turn.world.calls, run.world.calls, |w.calls|);
      OutputsAddUp(
        KindOf(cfg.connection), s, turn.store, run.store, turn.world.calls, run.world.calls, |w.calls|);
    }
  }

  /**
   With every tool behind `run_tool`, whatever the store, the hook or the provider do: every call
   of a run shows what the gate makes of that call's own tool outcome, and every tool output the
   run logs frames the result of one of these calls.
   */
  lemma {:induction false} RunLogsOnlyWhatCrossed(
    tools: GatedTools, cfg: Config, s: StoreState, w: World, commands: seq<Command>)
    requires Gated(tools, cfg)
    ensures var run := Run(cfg, s, w, commands);
      && w.calls <= run.world.calls && CallsCross(tools, run.world.calls, |w.calls|)
      && NewOutputsFromCalls(KindOf(cfg.connection), s, run.store, run.world.calls, |w.calls|)
  {
    RunOutputs(cfg, s, w, commands);
    MadeCallsCross(tools, cfg.host, Run(cfg, s, w, commands).world.calls, |w.calls|);
  }

  // ---- what a refused result leaves behind: the envelope and nothing else ------------------------

  /** No tool ever gives a shape the gate lets through: each raises, or returns something else. */
  ghost predicate NothingAllowed(tools: GatedTools) {
    forall calls, name, args :: var outcome := tools.body(calls, name, args);
      !outcome.Interrupted? && (outcome.Returned? ==> !AllowedShape(outcome.value))
  }

  ghost predicate FramesAnEnvelope(kind: Kind, part: Json, tools: GatedTools, calls: seq<Call>, start: nat) {
    exists k :: start <= k < |calls| && Frames(kind, part, Envelope(tools, calls[..k]))
  }

  /** Then every tool output in every row a run logs is the envelope of one of its calls. */
  lemma {:induction false} UngatedResultsLogEnvelopes(
    tools: GatedTools, cfg: Config, s: StoreState, w: World, commands: seq<Command>, id: int, i: nat, part: Json)
    requires Gated(tools, cfg) && NothingAllowed(tools)
    requires |Log(s, id)| <= i < |Log(Run(cfg, s, w, commands).store, id)|
    requires IsOutput(KindOf(cfg.connection), Log(Run(cfg, s, w, commands).store, id)[i].meta, part)
    ensures FramesAnEnvelope(KindOf(cfg.connection), part, tools, Run(cfg, s, w, commands).world.calls, |w.calls|)
  {
    RunLogsOnlyWhatCrossed(tools, cfg, s, w, commands);
    var (kind, run) := (KindOf(cfg.connection), Run(cfg, s, w, commands));
    var calls := run.world.calls;
    assert Log(run.store, id)[i] == Log(run.store, id)[|Log(s, id)|..][i - |Log(s, id)|];
    var k :| |w.calls| <= k < |calls| && calls[k].result.Ok? && Frames(kind, part, calls[k].result.value);
    var outcome := tools.body(calls[..k], calls[k].name, calls[k].args);
    if outcome.Returned? {
      OtherShapesAreRefused(tools.scrub, outcome.value);
    }
    assert calls[k].result == Ok(Envelope(tools, calls[..k]));
  }
}
