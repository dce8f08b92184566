/**
 What the gate refuses leaves no trace. That a refused outcome becomes the envelope is all the gate
 has to do for it (`RefusedIsEnvelope`); the rest is that a run depends on its host's answers only.
 */
module Confinement {
  import opened Results
  import opened JsonValues
  import opened World
  import opened Rounds
  import opened Gate
  import opened Metadata
  import opened Store
  import opened Session

  // ---- a run depends on its host's answers only ------------------------------

  /** Two hosts that answer alike, whatever is behind their tools. */
  ghost predicate SameAnswers(a: Host, b: Host) {
    a.hook == b.hook && forall calls, name, args :: a.tool(calls, name, args) == b.tool(calls, name, args)
  }

  lemma {:induction false} SameBlocks(a: Host, b: Host, blocks: seq<Json>, w: World)
    requires SameAnswers(a, b)
    ensures RunBlocks(a, blocks, w) == RunBlocks(b, blocks, w)
  {
    if blocks != [] {
      var use := ToolUse(blocks[0]);
      var (name, args) := (GetOrNull(use, "name"), OrEmptyDict(GetOrNull(use, "input")));
      assert Invoke(a, w, name, args) == Invoke(b, w, name, args);
      SameBlocks(a, b, blocks[1..], if Truthy(use) then Invoke(a, w, name, args).0 else w);
    }
  }

  lemma SameRounds(a: Host, b: Host, conn: Connection, messages: seq<Json>, w: World)
    requires SameAnswers(a, b)
    ensures RunRound(conn, a, messages, w) == RunRound(conn, b, messages, w)
  {
    var w1 := Ask(w, messages);
    match conn
    case OpenAi(create) =>
      var answer := create(w1.asked, w1.calls);
      if answer.Ok? && FirstCall(answer.value.output).Some? {
        var item := FirstCall(answer.value.output).value;
        assert InvokeItem(a, item, w1) == InvokeItem(b, item, w1);
      }
    case Bedrock(converse) =>
      var answer := converse(w1.asked, w1.calls);
      if answer.Ok? {
        SameBlocks(a, b, Blocks(answer.value.message), w1);
      }
  }

  lemma {:induction false} SameLoops(
    a: Host, b: Host, conn: Connection, messages: seq<Json>, rounds: nat, last: Option<Response>, w: World)
    requires SameAnswers(a, b)
    ensures Loop(conn, a, messages, rounds, last, w) == Loop(conn, b, messages, rounds, last, w)
    decreases rounds
  {
    if rounds > 0 {
      SameRounds(a, b, conn, messages, w);
      var round := RunRound(conn, a, messages, w);
      if round.More? {
        SameLoops(a, b, conn, messages + round.added, rounds - 1, Some(round.reply), round.world);
      }
    }
  }

  lemma {:induction false} SameWrites(
    cfg: Config, host: Host, kind: Kind, s: StoreState, id: int, messages: seq<Json>, w: World)
    ensures PersistNew(cfg.(host := host), kind, s, id, messages, w) == PersistNew(cfg, kind, s, id, messages, w)
    decreases |messages|
  {
    if messages != [] {
      var meta := WithToolMetadata(messages[0], w.refs, w.payload);
      if meta.Ok? {
        var s1 := Append(cfg.faults, s, id, MessageRow(cfg, kind, messages[0], meta.value)).0;
        SameWrites(cfg, host, kind, s1, id, messages[1..], w);
      }
    }
  }

  lemma SameTurns(cfg: Config, host: Host, s: StoreState, w: World, hash: string, command: string)
    requires SameAnswers(cfg.host, host)
    ensures RunTurn(cfg.(host := host), s, w, hash, command) == RunTurn(cfg, s, w, hash, command)
  {
    var (s1, prepared) := Prepare(cfg, s, hash, command);
    assert Prepare(cfg.(host := host), s, hash, command) == (s1, prepared);
    if prepared.Ok? {
      var p := prepared.value;
      SameLoops(cfg.host, host, cfg.connection, Entered(cfg.connection, p.sent), cfg.Cap(), None, StartTurn(w));
      var loop := ChatWithTools(cfg.connection, cfg.host, p.sent, cfg.Cap(), StartTurn(w));
      SameWrites(cfg, host, p.kind, s1, p.id, NewMessages(p.sent, loop.messages), loop.world);
    }
  }

  lemma {:induction false} SameRuns(cfg: Config, host: Host, s: StoreState, w: World, commands: seq<Command>)
    requires SameAnswers(cfg.host, host)
    ensures Run(cfg.(host := host), s, w, commands) == Run(cfg, s, w, commands)
    decreases |commands|
  {
    if commands != [] {
      SameTurns(cfg, host, s, w, commands[0].hash, commands[0].text);
      var turn := RunTurn(cfg, s, w, commands[0].hash, commands[0].text);
      SameRuns(cfg, host, turn.store, turn.world, commands[1..]);
    }
  }

  // ---- refused results ---------------------------------------------------------

  /** The same tools but for outcomes the gate refuses: those may be any other refused outcomes. */
  ghost predicate DifferInRefused(tools: GatedTools, others: GatedTools) {
    && others == tools.(body := others.body)
    && forall calls, name, args ::
         var (x, y) := (tools.body(calls, name, args), others.body(calls, name, args));
         x == y || (Refuses(tools.scrub, x) && Refuses(tools.scrub, y))
  }

  /** Whatever was refused, what the model and the session get is one and the same. */
  lemma RefusedIsEnvelope(tools: GatedTools, calls: seq<Call>, name: Json, args: Json)
    requires Refuses(tools.scrub, tools.body(calls, name, args))
    ensures RunTool(tools.scrub, tools.body(calls, name, args), tools.freshRef(calls)) == Ok(Envelope(tools, calls))
  {
    RunToolReturns(tools, calls, name, args, Ok(Envelope(tools, calls)));
  }

  /**
   Consequently nothing of a refused result gets anywhere. Replace what tools return where the gate refuses it
   (raw entities for other raw entities, or for an exception) and every run stays the same:
   the replies, the requests, the recorded calls, the captured metadata and every stored row.
   */
  lemma RefusedResultsLeaveNoTrace(
    tools: GatedTools, others: GatedTools, cfg: Config, s: StoreState, w: World, commands: seq<Command>)
    requires cfg.host == GatedHost(tools, cfg.host.hook) && DifferInRefused(tools, others)
    ensures Run(cfg.(host := GatedHost(others, cfg.host.hook)), s, w, commands) == Run(cfg, s, w, commands)
  {
    var host := GatedHost(others, cfg.host.hook);
    forall calls, name, args ensures cfg.host.tool(calls, name, args) == host.tool(calls, name, args) {
      var (x, y) := (tools.body(calls, name, args), others.body(calls, name, args));
      if x != y {
        RefusedIsEnvelope(tools, calls, name, args);
        RefusedIsEnvelope(others, calls, name, args);
      }
    }
    SameRuns(cfg, host, s, w, commands);
  }
}
