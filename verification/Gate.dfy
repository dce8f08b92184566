/** The safety gate between tool results and the model (`llm_core_lib/safety/payload_gate.py`). */
module Gate {
  import opened Results
  import opened JsonValues
  import opened Fragments
  import opened World
  import opened Rounds
  import opened Outputs
  import opened Capture

  /** The PII scrub of one value; it may raise. On a list it works member by member. */
  type Scrubber = Json -> Outcome<Json>

  /** `PiiService.scrub` on a list. */
  function ScrubAll(scrub: Scrubber, items: seq<Json>): Outcome<seq<Json>> {
    if items == [] then Ok([])
    else
      var first :- scrub(items[0]);
      var rest :- ScrubAll(scrub, items[1..]);
      Ok([first] + rest)
  }

  // ---- history --------------------------------------------------------------

  /** `scrub_history_for_llm`: everything but the last message, which is the current prompt. */
  function ScrubHistory(scrub: Scrubber, messages: seq<Json>): Outcome<seq<Json>> {
    if messages == [] then Ok([])
    else
      var head :- ScrubAll(scrub, messages[..|messages| - 1]);
      Ok(head + [messages[|messages| - 1]])
  }

  lemma {:induction false} ScrubAllPointwise(scrub: Scrubber, items: seq<Json>)
    ensures ScrubAll(scrub, items).Ok? <==> forall i :: 0 <= i < |items| ==> scrub(items[i]).Ok?
    ensures ScrubAll(scrub, items).Ok? ==>
      && |ScrubAll(scrub, items).value| == |items|
      && forall i :: 0 <= i < |items| ==> Ok(ScrubAll(scrub, items).value[i]) == scrub(items[i])
  {
    if items != [] {
      ScrubAllPointwise(scrub, items[1..]);
      assert items == [items[0]] + items[1..];
    }
  }

  /** The scrub keeps order, length and the current prompt; every prior turn is its own image. */
  lemma ScrubHistoryShape(scrub: Scrubber, messages: seq<Json>)
    requires messages != [] && ScrubHistory(scrub, messages).Ok?
    ensures var sent := ScrubHistory(scrub, messages).value;
      && |sent| == |messages|
      && sent[|sent| - 1] == messages[|messages| - 1]
      && forall i :: 0 <= i < |messages| - 1 ==> Ok(sent[i]) == scrub(messages[i])
  {
    ScrubAllPointwise(scrub, messages[..|messages| - 1]);
  }

  // ---- projection ----------------------------------------------------------------

  /** What a host tool hands to the gate; `dump` is the outcome of `model_dump()`. */
  datatype HostValue =
    | NoValue
    | RefView(dump: Outcome<Json>)
    | OtherView(dump: Outcome<Json>)
    | Plain(value: Json)
    | ListOf(members: seq<HostValue>)

  function ProjectAll(members: seq<HostValue>): Outcome<seq<Json>> {
    if members == [] then Ok([])
    else if !members[0].RefView? then Raised
    else
      var first :- members[0].dump;
      var rest :- ProjectAll(members[1..]);
      Ok([first] + rest)
  }

  /** `_project`: `RefLLMView` or nothing, for a list all or nothing. */
  function Project(result: HostValue): Outcome<Json> {
    match result
    case NoValue => Ok(Null)
    case ListOf(members) =>
      var dumps :- ProjectAll(members);
      Ok(Arr(dumps))
    case RefView(dump) => dump
    case _ => Raised
  }

  method ProjectResult(result: HostValue) returns (projected: Outcome<Json>)
    ensures projected == Project(result)
  {
    if result.NoValue? {
      return Ok(Null);
    }
    if result.ListOf? {
      var members := result.members;
      var dumpedItems: seq<Json> := [];
      var i := 0;
      ghost var all := ProjectAll(members);
      assert members[0..] == members && (all.Ok? ==> [] + all.value == all.value);
      while i < |members|
        invariant 0 <= i <= |members|
        invariant var rest := ProjectAll(members[i..]);
          ProjectAll(members) == if rest.Ok? then Ok(dumpedItems + rest.value) else Raised
      {
        var item := members[i];
        assert members[i..][1..] == members[i + 1..];
        if !item.RefView? || item.dump.Raised? {
          return Raised;
        }
        ghost var rest := ProjectAll(members[i + 1..]);
        assert rest.Ok? ==>
          dumpedItems + ([item.dump.value] + rest.value) == (dumpedItems + [item.dump.value]) + rest.value;
        dumpedItems := dumpedItems + [item.dump.value];
        i := i + 1;
      }
      assert dumpedItems + [] == dumpedItems;
      return Ok(Arr(dumpedItems));
    }
    if !result.RefView? {
      return Raised;
    }
    return result.dump;
  }

  /** The scrub of a projected value: a list member by member, anything else as one value. */
  function ScrubValue(scrub: Scrubber, j: Json): Outcome<Json> {
    if j.Arr? then
      var items :- ScrubAll(scrub, j.items);
      Ok(Arr(items))
    else scrub(j)
  }

  /** `to_llm_payload`. */
  function ToLlmPayload(scrub: Scrubber, result: HostValue): Outcome<Json> {
    var projected :- Project(result);
    ScrubValue(scrub, projected)
  }

  /** `sanitized_error_payload`. */
  function SanitizedErrorPayload(ref: string): Json {
    Obj([
      Field("status", Str("error")),
      Field("detail", Str("The request could not be completed.")),
      Field("ref", Str(ref))])
  }

  /** The envelope says that something failed and gives a reference, nothing else. */
  lemma EnvelopeReads(ref: string)
    ensures var envelope := SanitizedErrorPayload(ref);
      && KeysOf(envelope.fields) == {"status", "detail", "ref"}
      && Get(envelope, "status") == Some(Str("error"))
      && Get(envelope, "detail") == Some(Str("The request could not be completed."))
      && Get(envelope, "ref") == Some(Str(ref))
  {
    var f := SanitizedErrorPayload(ref).fields;
    assert f == [f[0], f[1], f[2]] && f[1..] == [f[1], f[2]];
    assert |"ref"| != |"status"| && |"ref"| != |"detail"| && "status"[0] != "detail"[0];
    LookupPair(f[1], f[2], "detail");
    LookupPair(f[1], f[2], "ref");
  }

  /** A tool body returns, raises an ordinary exception, or is interrupted by one that is not. */
  datatype ToolOutcome = Returned(value: HostValue) | Failed | Interrupted

  /** `run_tool`: every ordinary failure becomes the fixed envelope. */
  function RunTool(scrub: Scrubber, outcome: ToolOutcome, freshRef: string): Outcome<Json> {
    match outcome
    case Interrupted => Raised
    case Failed => Ok(SanitizedErrorPayload(freshRef))
    case Returned(value) =>
      var payload := ToLlmPayload(scrub, value);
      if payload.Ok? then payload else Ok(SanitizedErrorPayload(freshRef))
  }

  // ---- what can cross the boundary ---------------------------------------------------

  ghost predicate AllRefViews(members: seq<HostValue>, dumps: seq<Json>) {
    && |members| == |dumps|
    && forall i :: 0 <= i < |members| ==> members[i] == RefView(Ok(dumps[i]))
  }

  /** The scrub of a value is the payload; a list is scrubbed member by member. */
  ghost predicate ScrubsTo(scrub: Scrubber, value: Json, payload: Json) {
    if value.Arr? then
      && payload.Arr? && |payload.items| == |value.items|
      && forall i :: 0 <= i < |value.items| ==> scrub(value.items[i]) == Ok(payload.items[i])
    else scrub(value) == Ok(payload)
  }

  lemma ScrubsToExactly(scrub: Scrubber, value: Json, payload: Json)
    ensures ScrubValue(scrub, value) == Ok(payload) <==> ScrubsTo(scrub, value, payload)
  {
    if value.Arr? {
      ScrubAllPointwise(scrub, value.items);
      if ScrubsTo(scrub, value, payload) {
        assert ScrubAll(scrub, value.items).value == payload.items;
      }
    }
  }

  /** The scrub of nothing, of one dumped `RefLLMView`, or of a list of nothing else. */
  ghost predicate FromRefViews(scrub: Scrubber, payload: Json, source: HostValue) {
    match source
    case NoValue => scrub(Null) == Ok(payload)
    case RefView(dump) => dump.Ok? && ScrubsTo(scrub, dump.value, payload)
    case ListOf(members) => exists dumps :: AllRefViews(members, dumps) && ScrubsTo(scrub, Arr(dumps), payload)
    case _ => false
  }

  lemma {:induction false} ProjectAllExact(members: seq<HostValue>)
    ensures ProjectAll(members).Ok? <==> forall i :: 0 <= i < |members| ==> members[i].RefView? && members[i].dump.Ok?
    ensures ProjectAll(members).Ok? ==> AllRefViews(members, ProjectAll(members).value)
  {
    if members != [] {
      ProjectAllExact(members[1..]);
      assert members == [members[0]] + members[1..];
    }
  }

  lemma DumpsAreUnique(members: seq<HostValue>, a: seq<Json>, b: seq<Json>)
    requires AllRefViews(members, a) && AllRefViews(members, b)
    ensures a == b
  {
    forall i | 0 <= i < |a| ensures a[i] == b[i] {
      assert members[i] == RefView(Ok(a[i])) && members[i] == RefView(Ok(b[i]));
    }
  }

  /** The gate lets a payload through exactly when it comes from `RefLLMView` values only. */
  lemma GateIsExact(scrub: Scrubber, result: HostValue, payload: Json)
    ensures ToLlmPayload(scrub, result) == Ok(payload) <==> FromRefViews(scrub, payload, result)
  {
    if Project(result).Ok? {
      ScrubsToExactly(scrub, Project(result).value, payload);
    }
    if result.ListOf? {
      ProjectAllExact(result.members);
      if FromRefViews(scrub, payload, result) {
        var dumps :| AllRefViews(result.members, dumps) && ScrubsTo(scrub, Arr(dumps), payload);
        assert forall i :: 0 <= i < |dumps| ==> result.members[i].RefView? && result.members[i].dump.Ok?;
        DumpsAreUnique(result.members, dumps, ProjectAll(result.members).value);
      }
    }
  }

  /** No payload comes from this value: some of it is not a `RefLLMView`, or a dump or the scrub raises. */
  ghost predicate Refused(scrub: Scrubber, source: HostValue) {
    forall payload :: !FromRefViews(scrub, payload, source)
  }

  /** The shapes the gate lets through: nothing, a `RefLLMView`, a list of nothing else. */
  predicate AllowedShape(value: HostValue) {
    match value
    case NoValue => true
    case RefView(_) => true
    case ListOf(members) => forall i :: 0 <= i < |members| ==> members[i].RefView?
    case _ => false
  }

  /** Any other shape is refused, whatever it holds. */
  lemma OtherShapesAreRefused(scrub: Scrubber, source: HostValue)
    requires !AllowedShape(source)
    ensures Refused(scrub, source)
  {
    if source.ListOf? {
      var i :| 0 <= i < |source.members| && !source.members[i].RefView?;
      forall dumps ensures !AllRefViews(source.members, dumps) {
      }
    }
  }

  // ---- the gate seen from whole loops ---------------------------------------------------

  /** The host's tools behind the gate: raw bodies and fresh error references are policies. */
  datatype GatedTools = GatedTools(
    body: (seq<Call>, Json, Json) -> ToolOutcome,
    freshRef: (seq<Call>) -> string,
    scrub: Scrubber)

  /** The `invoke_tool` callback of a host that sends every call through `run_tool`. */
  function GatedHost(tools: GatedTools, hook: Option<(seq<Call>, Json, Json) -> HookReply>): Host {
    Host((calls, name, args) => RunTool(tools.scrub, tools.body(calls, name, args), tools.freshRef(calls)), hook)
  }

  ghost predicate NeverInterrupted(tools: GatedTools) {
    forall calls, name, args :: !tools.body(calls, name, args).Interrupted?
  }

  /** The error envelope of a call made after `before`; it depends on the fresh reference alone. */
  function Envelope(tools: GatedTools, before: seq<Call>): Json {
    SanitizedErrorPayload(tools.freshRef(before))
  }

  /** The tool raised, or gave something the gate refuses. */
  ghost predicate Refuses(scrub: Scrubber, outcome: ToolOutcome) {
    match outcome
    case Interrupted => false
    case Failed => true
    case Returned(value) => Refused(scrub, value)
  }

  /**
   What a call made after `before` shows is tied to what its own tool body gave: the payload the
   gate makes of that very value, the envelope if it was refused, nothing after an interrupt.
   */
  ghost predicate Crossed(tools: GatedTools, before: seq<Call>, call: Call) {
    var outcome := tools.body(before, call.name, call.args);
    if outcome.Interrupted? then call.result.Raised?
    else if Refuses(tools.scrub, outcome) then call.result == Ok(Envelope(tools, before))
    else call.result.Ok? && FromRefViews(tools.scrub, call.result.value, outcome.value)
  }

  /**
   No ordinary failure of a tool, of its shape or of the scrub gets out of `run_tool`, and what
   it returns is exactly what crosses for this tool outcome.
   */
  lemma RunToolReturns(tools: GatedTools, calls: seq<Call>, name: Json, args: Json, result: Outcome<Json>)
    ensures var r := RunTool(tools.scrub, tools.body(calls, name, args), tools.freshRef(calls));
      && (r.Raised? <==> tools.body(calls, name, args).Interrupted?)
      && (Crossed(tools, calls, Call(name, args, result)) <==> result == r)
  {
    var outcome := tools.body(calls, name, args);
    if outcome.Returned? {
      var payload := ToLlmPayload(tools.scrub, outcome.value);
      forall p
        ensures ToLlmPayload(tools.scrub, outcome.value) == Ok(p) <==> FromRefViews(tools.scrub, p, outcome.value)
      {
        GateIsExact(tools.scrub, outcome.value, p);
      }
      if payload.Ok? {
        assert FromRefViews(tools.scrub, payload.value, outcome.value);
      }
    }
  }

  ghost predicate CallsCross(tools: GatedTools, calls: seq<Call>, start: nat) {
    forall k :: start <= k < |calls| ==> Crossed(tools, calls[..k], calls[k])
  }

  /** A gated host's calls are the calls whose results crossed. */
  lemma MadeCallsCross(tools: GatedTools, host: Host, calls: seq<Call>, start: nat)
    requires host == GatedHost(tools, host.hook)
    ensures CallsMade(host, calls, start) <==> CallsCross(tools, calls, start)
  {
    forall k | start <= k < |calls|
      ensures Crossed(tools, calls[..k], calls[k])
        <==> calls[k].result == host.tool(calls[..k], calls[k].name, calls[k].args)
    {
      RunToolReturns(tools, calls[..k], calls[k].name, calls[k].args, calls[k].result);
    }
  }

  // ---- a loop behind the gate ends only with the provider -----------------------------------

  lemma {:induction false} BlocksGated(tools: GatedTools, blocks: seq<Json>, w: World)
    requires NeverInterrupted(tools)
    ensures RunBlocks(GatedHost(tools, None), blocks, w).1.Ok?
  {
    if blocks != [] {
      var use := ToolUse(blocks[0]);
      if Truthy(use) {
        var (name, args) := (GetOrNull(use, "name"), OrEmptyDict(GetOrNull(use, "input")));
        BlocksGated(tools, blocks[1..], Invoke(GatedHost(tools, None), w, name, args).0);
      } else {
        BlocksGated(tools, blocks[1..], w);
      }
    }
  }

  /** The provider itself raised: the only way left for a gated loop to end without a response. */
  predicate ProviderRaised(conn: Connection, w: World) {
    match conn
    case OpenAi(create) => create(w.asked, w.calls).Raised?
    case Bedrock(converse) => converse(w.asked, w.calls).Raised?
  }

  lemma RoundGated(tools: GatedTools, conn: Connection, messages: seq<Json>, w: World)
    requires NeverInterrupted(tools)
    ensures var round := RunRound(conn, GatedHost(tools, None), messages, w);
      && (round.Crash? <==> ProviderRaised(conn, Ask(w, messages)))
      && (round.Crash? ==> round.world == Ask(w, messages))
  {
    var (host, w1) := (GatedHost(tools, None), Ask(w, messages));
    if conn.Bedrock? && conn.converse(w1.asked, w1.calls).Ok? {
      BlocksGated(tools, Blocks(conn.converse(w1.asked, w1.calls).value.message), w1);
    }
  }

  lemma {:induction false} OnlyTheProviderRaises(
    tools: GatedTools, conn: Connection, messages: seq<Json>, rounds: nat, last: Option<Response>, w: World)
    requires NeverInterrupted(tools)
    ensures var r := Loop(conn, GatedHost(tools, None), messages, rounds, last, w);
      r.response.Raised? ==> ProviderRaised(conn, r.world)
    decreases rounds
  {
    if rounds > 0 {
      RoundGated(tools, conn, messages, w);
      var round := RunRound(conn, GatedHost(tools, None), messages, w);
      if round.More? {
        OnlyTheProviderRaises(tools, conn, messages + round.added, rounds - 1, Some(round.reply), round.world);
      }
    }
  }

  /**
   With every tool behind `run_tool`, whatever the metadata hook: every call a loop makes shows
   what the gate makes of that call's own tool outcome, and every tool output in the transcript
   frames the result of such a call.
   */
  lemma GatedLoop(
    tools: GatedTools, conn: Connection, host: Host, messages: seq<Json>, rounds: nat, last: Option<Response>, w: World)
    requires host == GatedHost(tools, host.hook) && NoProviderResults(conn)
    ensures var r := Loop(conn, host, messages, rounds, last, w);
      && w.calls <= r.world.calls && CallsCross(tools, r.world.calls, |w.calls|)
      && messages <= r.messages
      && forall i :: |messages| <= i < |r.messages| ==>
           FromCalls(KindOf(conn), r.world.calls, |w.calls|, r.messages[i])
  {
    LoopOutputs(conn, host, messages, rounds, last, w, |w.calls|);
    MadeCallsCross(tools, host, Loop(conn, host, messages, rounds, last, w).world.calls, |w.calls|);
  }

  /**
   No ordinary tool failure ends a whole `chat_with_tools`: if no tool is interrupted and every
   hook answer can be taken in, it lacks a response only because the provider raised.
   */
  lemma GatedChat(
    tools: GatedTools, host: Host, conn: Connection, messages: seq<Json>, rounds: nat, w: World)
    requires host == GatedHost(tools, host.hook) && NeverInterrupted(tools)
    ensures var r := ChatWithTools(conn, host, messages, rounds, w);
      WellAnswered(host, ChatWithTools(conn, Bare(host), messages, rounds, w).world.calls, |w.calls|) ==>
        (r.response.Raised? ==> ProviderRaised(conn, r.world))
  {
    assert Bare(host) == GatedHost(tools, None);
    CaptureIsTransparent(conn, host, Entered(conn, messages), rounds, None, w, w);
    OnlyTheProviderRaises(tools, conn, Entered(conn, messages), rounds, None, w);
  }
}
