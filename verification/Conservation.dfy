/** What a tool loop appends, for every provider script: nothing lost, nothing doubled. */
module Conservation {
  import opened Results
  import opened JsonValues
  import opened World
  import opened Rounds
  import opened Picking

  /** A call is a call of the item: same name, the item's arguments parsed. */
  predicate RunsItem(item: Json, call: Call) {
    call.name == GetOrNull(item, "name") && call.args == ParseArguments(GetOrNull(item, "arguments"))
  }

  /** Appended items and host calls, two for one and in the same order. */
  ghost predicate Answered(added: seq<Json>, calls: seq<Call>) {
    && |added| == 2 * |calls|
    && forall i :: 0 <= i < |calls| ==>
         && HasType(added[2 * i], "function_call")
         && RunsItem(added[2 * i], calls[i])
         && calls[i].result.Ok?
         && added[2 * i + 1] == CallOutput(added[2 * i], calls[i].result.value)
  }

  lemma {:induction false} FirstCallIsACall(output: seq<Json>)
    ensures FirstCall(output).Some? ==>
      FirstCall(output).value in output && HasType(FirstCall(output).value, "function_call")
  {
    if output != [] {
      FirstCallIsACall(output[1..]);
    }
  }

  /** Position `k` holds the earliest call. */
  predicate EarliestCall(output: seq<Json>, k: int) {
    && 0 <= k < |output| && HasType(output[k], "function_call")
    && forall j :: 0 <= j < k ==> !HasType(output[j], "function_call")
  }

  ghost predicate HoldsEarliestCall(output: seq<Json>, item: Json) {
    exists k :: EarliestCall(output, k) && output[k] == item
  }

  /** A call is chosen exactly when the output holds one, and then it is the earliest. */
  lemma {:induction false} FirstCallIsEarliest(output: seq<Json>)
    ensures FirstCall(output).Some? <==> exists k :: 0 <= k < |output| && HasType(output[k], "function_call")
    ensures FirstCall(output).Some? ==> HoldsEarliestCall(output, FirstCall(output).value)
  {
    if output != [] {
      FirstCallIsEarliest(output[1..]);
      if HasType(output[0], "function_call") {
        assert EarliestCall(output, 0);
      } else if FirstCall(output[1..]).Some? {
        var k :| EarliestCall(output[1..], k) && output[1..][k] == FirstCall(output[1..]).value;
        assert output[k + 1] == output[1..][k];
        forall j | 0 <= j < k + 1 ensures !HasType(output[j], "function_call") {
          assert j > 0 ==> output[j] == output[1..][j - 1];
        }
        assert EarliestCall(output, k + 1);
      }
    }
  }

  /** `picked` are the messages of the output: all of them, in order, and nothing else. */
  ghost predicate PicksMessages(output: seq<Json>, picked: seq<Json>, positions: seq<nat>) {
    && Exactly(MessageFlags(output), positions) && |positions| == |picked|
    && forall i :: 0 <= i < |picked| ==> picked[i] == output[positions[i]]
  }

  function MessageFlags(output: seq<Json>): seq<bool> {
    seq(|output|, k requires 0 <= k < |output| => HasType(output[k], "message"))
  }

  lemma {:induction false} MessageItemsExtend(output: seq<Json>, k: nat)
    requires k < |output|
    ensures MessageItems(output[..k + 1]) ==
      MessageItems(output[..k]) + (if HasType(output[k], "message") then [output[k]] else [])
  {
    if k == 0 {
      assert output[..1][1..] == [];
    } else {
      assert output[..k + 1][1..] == output[1..][..k] && output[..k][1..] == output[1..][..k - 1];
      MessageItemsExtend(output[1..], k - 1);
    }
  }

  lemma {:induction false} MessageItemsArePicked(output: seq<Json>)
    ensures PicksMessages(output, MessageItems(output), Chosen(MessageFlags(output)))
  {
    ChosenIsExact(MessageFlags(output));
    if output != [] {
      var n := |output| - 1;
      MessageItemsArePicked(output[..n]);
      MessageItemsExtend(output, n);
      assert output[..n + 1] == output && MessageFlags(output)[..n] == MessageFlags(output[..n]);
      var before := Chosen(MessageFlags(output[..n]));
      forall i | 0 <= i < |before| ensures output[..n][before[i]] == output[before[i]] {
      }
    }
  }

  /** The account of a whole loop: requests, calls and appended items against each other. */
  ghost predicate Conserved(
    messages: seq<Json>, w: World, rounds: nat, r: LoopResult, added: seq<Json>, done: seq<Call>, tail: seq<Json>)
  {
    var requests := |r.world.asked| - |w.asked|;
    && r.messages == messages + added + tail
    && Answered(added, done)
    && w.asked <= r.world.asked && w.calls + done <= r.world.calls
    && |done| <= requests <= |done| + 1 && requests <= rounds
    && |r.world.calls| - |w.calls| <= |done| + 1
    && (r.response.Ok? ==> r.world.calls == w.calls + done)
    && (r.response.Raised? ==> tail == [] && requests == |done| + 1)
    && (r.response.Ok? && requests == |done| ==> |done| == rounds && tail == [])
  }

  /** Request `i` holds the input and the items so far, and item `2 * i` is the earliest call of its answer. */
  ghost predicate Scripted(
    create: OpenAiClient, messages: seq<Json>, w: World, r: LoopResult, added: seq<Json>, i: nat)
  {
    var (a, c) := (|w.asked| + i, |w.calls| + i);
    && 2 * i < |added| && a < |r.world.asked| && c <= |r.world.calls|
    && r.world.asked[a] == messages + added[..2 * i]
    && var answer := create(r.world.asked[..a + 1], r.world.calls[..c]);
       answer.Ok? && !answer.value.error && HoldsEarliestCall(answer.value.output, added[2 * i])
  }

  /** The reply a loop ends with: no call in it, and all its messages appended, unless it is an error. */
  ghost predicate Terminal(reply: OpenAiReply, tail: seq<Json>) {
    if reply.error then tail == []
    else
      && (forall k :: 0 <= k < |reply.output| ==> !HasType(reply.output[k], "function_call"))
      && exists positions :: PicksMessages(reply.output, tail, positions)
  }

  /** How the loop ends: by a reply without a call, by an exception, or by the round cap. */
  ghost predicate Closed(
    create: OpenAiClient, messages: seq<Json>, last: Option<Response>, w: World, r: LoopResult,
    added: seq<Json>, done: seq<Call>, tail: seq<Json>)
    requires w.calls + done <= r.world.calls && w.asked <= r.world.asked
  {
    var (n, before) := (|r.world.asked|, r.world.calls[..|w.calls| + |done|]);
    if n - |w.asked| == |done| + 1 then
      var answer := create(r.world.asked, before);
      && r.world.asked[n - 1] == messages + added
      && if r.response.Ok? then
           answer.Ok? && r.response.value == Some(FromOpenAi(answer.value)) && Terminal(answer.value, tail)
         else
           || (answer.Raised? && r.world.calls == before)
           || (&& answer.Ok? && !answer.value.error && |r.world.calls| == |before| + 1
               && exists k :: EarliestCall(answer.value.output, k)
                    && RunsItem(answer.value.output[k], r.world.calls[|before|]))
    else
      r.response.Ok? && r.response.value == if done == [] then last else
        var answer := create(r.world.asked, r.world.calls[..|w.calls| + |done| - 1]);
        if answer.Ok? then Some(FromOpenAi(answer.value)) else None
  }

  ghost predicate Accounted(
    create: OpenAiClient, messages: seq<Json>, rounds: nat, last: Option<Response>, w: World, r: LoopResult,
    added: seq<Json>, done: seq<Call>, tail: seq<Json>)
  {
    && Conserved(messages, w, rounds, r, added, done, tail)
    && (forall i :: 0 <= i < |done| ==> Scripted(create, messages, w, r, added, i))
    && Closed(create, messages, last, w, r, added, done, tail)
  }

  /** What a round that goes on does: one call, the earliest of its answer, and its output. */
  ghost predicate OneCallRound(create: OpenAiClient, messages: seq<Json>, w: World, round: Round, call: Call) {
    && round.More? && |round.added| == 2
    && round.world.calls == w.calls + [call] && round.world.asked == w.asked + [messages]
    && Answered(round.added, [call])
    && var answer := create(round.world.asked, w.calls);
       && answer.Ok? && !answer.value.error && round.reply == FromOpenAi(answer.value)
       && HoldsEarliestCall(answer.value.output, round.added[0])
  }

  lemma {:induction false} AccountedStep(
    create: OpenAiClient, messages: seq<Json>, rounds: nat, last: Option<Response>, w: World, round: Round,
    call: Call, r: LoopResult, added: seq<Json>, done: seq<Call>, tail: seq<Json>)
    requires rounds > 0 && OneCallRound(create, messages, w, round, call)
    requires Accounted(
      create, messages + round.added, rounds - 1, Some(round.reply), round.world, r, added, done, tail)
    ensures Accounted(create, messages, rounds, last, w, r, round.added + added, [call] + done, tail)
  {
    var w1 := round.world;
    ConservedStep(messages, w, rounds, round.added, call, w1, r, added, done, tail);
    ScriptedStep(create, messages, w, w1, r, round.added, added, done);
    ClosedStep(create, messages, last, w, round.reply, w1, r, round.added, call, added, done, tail);
  }

  /**
   For every provider, the loop makes at most `rounds` requests, each holding the input and the
   items so far; the final list is the input, then two items per completed call in call order, the
   earliest call of that round's answer and its output, then the messages of the terminal reply
   alone. A request without a completed call is the terminal one or the one that raised. The
   response is the answer to the last request.
   */
  lemma {:induction false} OpenAiConservation(
    create: OpenAiClient, host: Host, messages: seq<Json>, rounds: nat, last: Option<Response>, w: World)
    returns (added: seq<Json>, done: seq<Call>, tail: seq<Json>)
    ensures Accounted(
      create, messages, rounds, last, w, Loop(OpenAi(create), host, messages, rounds, last, w), added, done, tail)
    decreases rounds
  {
    added, done, tail := [], [], [];
    if rounds == 0 {
      assert messages + [] + [] == messages && w.calls + [] == w.calls;
    } else {
      var round := RunRound(OpenAi(create), host, messages, w);
      if round.More? {
        var w1 := round.world;
        var call := MoreRunsOneCall(create, host, messages, w);
        var next := messages + round.added;
        added, done, tail := OpenAiConservation(create, host, next, rounds - 1, Some(round.reply), w1);
        var r := Loop(OpenAi(create), host, next, rounds - 1, Some(round.reply), w1);
        AccountedStep(create, messages, rounds, last, w, round, call, r, added, done, tail);
        added, done := round.added + added, [call] + done;
      } else {
        tail := round.added;
        LastRoundAccounted(create, host, messages, rounds, last, w);
      }
    }
  }

  lemma {:induction false} LastRoundAccounted(
    create: OpenAiClient, host: Host, messages: seq<Json>, rounds: nat, last: Option<Response>, w: World)
    requires rounds > 0 && !OpenAiRound(create, host, messages, w).More?
    ensures Accounted(
      create, messages, rounds, last, w, Loop(OpenAi(create), host, messages, rounds, last, w),
      [], [], OpenAiRound(create, host, messages, w).added)
  {
    LastRoundConserves(create, host, messages, rounds, last, w);
    LastRoundCloses(create, host, messages, rounds, last, w);
  }

  lemma {:induction false} ScriptedStep(
    create: OpenAiClient, messages: seq<Json>, w: World, w1: World, r: LoopResult,
    items: seq<Json>, added: seq<Json>, done: seq<Call>)
    requires |items| == 2 && w1.asked == w.asked + [messages] && |w1.calls| == |w.calls| + 1
    requires w1.asked <= r.world.asked && w1.calls <= r.world.calls && w.calls <= w1.calls
    requires create(w1.asked, w.calls).Ok? && !create(w1.asked, w.calls).value.error
    requires HoldsEarliestCall(create(w1.asked, w.calls).value.output, items[0])
    requires forall i :: 0 <= i < |done| ==> Scripted(create, messages + items, w1, r, added, i)
    ensures forall i :: 0 <= i < |done| + 1 ==> Scripted(create, messages, w, r, items + added, i)
  {
    var all := items + added;
    forall i | 0 <= i < |done| + 1 ensures Scripted(create, messages, w, r, all, i) {
      if i == 0 {
        assert r.world.asked[..|w.asked| + 1] == w1.asked && r.world.calls[..|w.calls|] == w.calls;
        assert messages + all[..0] == messages;
      } else {
        assert Scripted(create, messages + items, w1, r, added, i - 1);
        assert all[..2 * i] == items + added[..2 * (i - 1)] && all[2 * i] == added[2 * (i - 1)];
        assert (messages + items) + added[..2 * (i - 1)] == messages + all[..2 * i];
      }
    }
  }

  lemma {:induction false} ClosedStep(
    create: OpenAiClient, messages: seq<Json>, last: Option<Response>, w: World, reply: Response, w1: World,
    r: LoopResult, items: seq<Json>, call: Call, added: seq<Json>, done: seq<Call>, tail: seq<Json>)
    requires w1.calls == w.calls + [call] && w1.asked == w.asked + [messages]
    requires w1.calls + done <= r.world.calls && w1.asked <= r.world.asked
    requires create(w1.asked, w.calls).Ok? && reply == FromOpenAi(create(w1.asked, w.calls).value)
    requires |r.world.asked| - |w1.asked| in {|done|, |done| + 1}
    requires Closed(create, messages + items, Some(reply), w1, r, added, done, tail)
    ensures w.calls + ([call] + done) <= r.world.calls && w.asked <= r.world.asked
    ensures Closed(create, messages, last, w, r, items + added, [call] + done, tail)
  {
    assert w.calls + ([call] + done) == w1.calls + done;
    assert messages + (items + added) == (messages + items) + added;
    assert r.world.calls[..|w.calls|] == w.calls;
    assert |r.world.asked| == |w1.asked| ==> r.world.asked == w1.asked;
  }

  lemma {:induction false} LastRoundCloses(
    create: OpenAiClient, host: Host, messages: seq<Json>, rounds: nat, last: Option<Response>, w: World)
    requires rounds > 0 && !OpenAiRound(create, host, messages, w).More?
    requires var r := Loop(OpenAi(create), host, messages, rounds, last, w);
      w.calls + [] <= r.world.calls && w.asked <= r.world.asked
    ensures Closed(create, messages, last, w, Loop(OpenAi(create), host, messages, rounds, last, w),
      [], [], OpenAiRound(create, host, messages, w).added)
  {
    var round := OpenAiRound(create, host, messages, w);
    var r := Loop(OpenAi(create), host, messages, rounds, last, w);
    var answer := create(r.world.asked, w.calls);
    assert messages + [] == messages && r.world.calls[..|w.calls|] == w.calls;
    if answer.Ok? && !answer.value.error {
      FirstCallIsEarliest(answer.value.output);
      if round.Stop? {
        MessageItemsArePicked(answer.value.output);
      }
    }
  }

  lemma {:induction false} MoreRunsOneCall(
    create: OpenAiClient, host: Host, messages: seq<Json>, w: World)
    returns (call: Call)
    requires OpenAiRound(create, host, messages, w).More?
    ensures OneCallRound(create, messages, w, OpenAiRound(create, host, messages, w), call)
  {
    var round := OpenAiRound(create, host, messages, w);
    call := round.world.calls[|w.calls|];
    FirstCallIsACall(round.reply.openai.output);
    FirstCallIsEarliest(round.reply.openai.output);
  }

  lemma {:induction false} LastRoundConserves(
    create: OpenAiClient, host: Host, messages: seq<Json>, rounds: nat, last: Option<Response>, w: World)
    requires rounds > 0 && !OpenAiRound(create, host, messages, w).More?
    ensures Conserved(messages, w, rounds, Loop(OpenAi(create), host, messages, rounds, last, w),
      [], [], OpenAiRound(create, host, messages, w).added)
  {
    var added := OpenAiRound(create, host, messages, w).added;
    assert messages + [] + added == messages + added && w.calls + [] == w.calls;
  }

  lemma {:induction false} ConservedStep(
    messages: seq<Json>, w: World, rounds: nat, items: seq<Json>, call: Call, w1: World,
    r: LoopResult, added: seq<Json>, done: seq<Call>, tail: seq<Json>)
    requires rounds > 0 && Answered(items, [call])
    requires w1.calls == w.calls + [call] && w1.asked == w.asked + [messages]
    requires Conserved(messages + items, w1, rounds - 1, r, added, done, tail)
    ensures Conserved(messages, w, rounds, r, items + added, [call] + done, tail)
  {
    AnsweredStep(items, call, added, done);
    assert w.calls + ([call] + done) == w1.calls + done;
    assert messages + (items + added) + tail == (messages + items) + added + tail;
  }

  lemma {:induction false} AnsweredStep(items: seq<Json>, call: Call, added: seq<Json>, calls: seq<Call>)
    requires Answered(items, [call]) && Answered(added, calls)
    ensures Answered(items + added, [call] + calls)
  {
    var (xs, cs) := (items + added, [call] + calls);
    forall i | 0 <= i < |cs|
      ensures HasType(xs[2 * i], "function_call") && RunsItem(xs[2 * i], cs[i]) && cs[i].result.Ok?
      ensures xs[2 * i + 1] == CallOutput(xs[2 * i], cs[i].result.value)
    {
      if i == 0 {
        assert xs[0] == items[2 * 0] && xs[1] == items[2 * 0 + 1] && cs[0] == [call][0];
      } else {
        assert xs[2 * i] == added[2 * (i - 1)] && xs[2 * i + 1] == added[2 * (i - 1) + 1] && cs[i] == calls[i - 1];
      }
    }
  }

  // ---- Bedrock ------------------------------------------------------------

  /** The `toolUse` values a round runs, in block order. */
  function Uses(blocks: seq<Json>): seq<Json> {
    if blocks == [] then []
    else if Truthy(ToolUse(blocks[0])) then [ToolUse(blocks[0])] + Uses(blocks[1..])
    else Uses(blocks[1..])
  }

  /** `uses` are the truthy `toolUse` values of the blocks: all of them, in order, and nothing else. */
  ghost predicate PicksUses(blocks: seq<Json>, uses: seq<Json>, positions: seq<nat>) {
    && Exactly(UseFlags(blocks), positions) && |positions| == |uses|
    && forall i :: 0 <= i < |uses| ==> Get(blocks[positions[i]], "toolUse") == Some(uses[i])
  }

  function UseFlags(blocks: seq<Json>): seq<bool> {
    seq(|blocks|, k requires 0 <= k < |blocks| => Truthy(GetOrNull(blocks[k], "toolUse")))
  }

  lemma {:induction false} UsesExtend(blocks: seq<Json>, k: nat)
    requires k < |blocks|
    ensures Uses(blocks[..k + 1]) ==
      Uses(blocks[..k]) + (if Truthy(ToolUse(blocks[k])) then [ToolUse(blocks[k])] else [])
  {
    if k == 0 {
      assert blocks[..1][1..] == [];
    } else {
      assert blocks[..k + 1][1..] == blocks[1..][..k] && blocks[..k][1..] == blocks[1..][..k - 1];
      UsesExtend(blocks[1..], k - 1);
    }
  }

  lemma {:induction false} UsesArePicked(blocks: seq<Json>)
    ensures PicksUses(blocks, Uses(blocks), Chosen(UseFlags(blocks)))
  {
    ChosenIsExact(UseFlags(blocks));
    if blocks != [] {
      var n := |blocks| - 1;
      UsesArePicked(blocks[..n]);
      UsesExtend(blocks, n);
      assert blocks[..n + 1] == blocks && UseFlags(blocks)[..n] == UseFlags(blocks[..n]);
      var before := Chosen(UseFlags(blocks[..n]));
      forall i | 0 <= i < |before| ensures blocks[..n][before[i]] == blocks[before[i]] {
      }
    }
  }

  /** A call is a call of the use: same name, and the use's input if it has one. */
  predicate RunsUse(use: Json, call: Call) {
    var input := GetOrNull(use, "input");
    && call.name == GetOrNull(use, "name")
    && (Truthy(input) ==> call.args == input) && (!Truthy(input) ==> call.args == Obj([]))
  }

  ghost predicate RunsUses(uses: seq<Json>, calls: seq<Call>, results: seq<Json>) {
    && |uses| == |calls| == |results|
    && forall i :: 0 <= i < |uses| ==>
         && RunsUse(uses[i], calls[i])
         && calls[i].result.Ok?
         && results[i] == ToolResultBlock(uses[i], calls[i].result.value)
  }

  lemma {:induction false} RunsUsesStep(
    use: Json, call: Call, result: Json, uses: seq<Json>, calls: seq<Call>, results: seq<Json>)
    requires RunsUses(uses, calls, results)
    requires call == Call(GetOrNull(use, "name"), OrEmptyDict(GetOrNull(use, "input")), Ok(result))
    ensures RunsUses([use] + uses, [call] + calls, [ToolResultBlock(use, result)] + results)
  {
  }

  /** A completed round runs every use once, in order, and answers each with its own id. */
  lemma {:induction false} BlocksConservation(host: Host, blocks: seq<Json>, w: World)
    ensures var (w1, r) := RunBlocks(host, blocks, w);
      && w.calls <= w1.calls && w1.asked == w.asked
      && (r.Ok? ==> RunsUses(Uses(blocks), w1.calls[|w.calls|..], r.value))
      && |w1.calls| - |w.calls| <= |Uses(blocks)|
  {
    if blocks != [] {
      var use := ToolUse(blocks[0]);
      if Truthy(use) {
        var (w1, result) := Invoke(host, w, GetOrNull(use, "name"), OrEmptyDict(GetOrNull(use, "input")));
        BlocksConservation(host, blocks[1..], w1);
        var (w2, rest) := RunBlocks(host, blocks[1..], w1);
        if rest.Ok? && result.Ok? {
          assert w2.calls[|w.calls|..] == [w1.calls[|w.calls|]] + w2.calls[|w1.calls|..];
          RunsUsesStep(use, w1.calls[|w.calls|], result.value, Uses(blocks[1..]), w2.calls[|w1.calls|..], rest.value);
        }
      } else {
        BlocksConservation(host, blocks[1..], w);
      }
    }
  }

  /** The uses of the assistant messages of a sequence of rounds, each message followed by its answers. */
  function AllUses(added: seq<Json>): seq<Json> {
    if added == [] then []
    else Uses(Blocks(added[0])) + if |added| == 1 then [] else AllUses(added[2..])
  }

  /** Completed rounds, and the host calls they stand for: all uses of a message, answered by the next. */
  ghost predicate AnsweredRounds(added: seq<Json>, calls: seq<Call>) {
    if |added| < 2 then added == [] && calls == []
    else
      var n := |Uses(Blocks(added[0]))|;
      && n <= |calls|
      && added[1] == FollowUp(Blocks(added[1]))
      && RunsUses(Uses(Blocks(added[0])), calls[..n], Blocks(added[1]))
      && AnsweredRounds(added[2..], calls[n..])
  }

  /** One completed call per use, in order, with the use's own name and arguments. */
  ghost predicate CallsOf(uses: seq<Json>, calls: seq<Call>) {
    && |uses| == |calls|
    && forall i :: 0 <= i < |uses| ==>
         && calls[i].result.Ok?
         && RunsUse(uses[i], calls[i])
  }

  lemma {:induction false} CallsOfBoth(a: seq<Json>, x: seq<Call>, b: seq<Json>, y: seq<Call>)
    requires CallsOf(a, x) && CallsOf(b, y)
    ensures CallsOf(a + b, x + y)
  {
  }

  /** Over all completed rounds, the host calls are the uses. */
  lemma {:induction false} CallsAreTheUses(added: seq<Json>, calls: seq<Call>)
    requires AnsweredRounds(added, calls)
    ensures CallsOf(AllUses(added), calls)
  {
    if |added| >= 2 {
      var uses := Uses(Blocks(added[0]));
      var (now, later) := (calls[..|uses|], calls[|uses|..]);
      CallsAreTheUses(added[2..], later);
      assert CallsOf(uses, now);
      CallsOfBoth(uses, now, AllUses(added[2..]), later);
      assert calls == now + later && (|added| == 2 ==> added[2..] == []);
    }
  }

  /** The account of a whole Bedrock loop: `added` are its completed rounds, `tail` what is left over. */
  ghost predicate BlocksConserved(
    messages: seq<Json>, w: World, rounds: nat, r: LoopResult, added: seq<Json>, done: seq<Call>, tail: seq<Json>)
  {
    AnsweredRounds(added, done) && BlocksCounted(messages, w, rounds, r, added, done, tail)
  }

  ghost predicate BlocksCounted(
    messages: seq<Json>, w: World, rounds: nat, r: LoopResult, added: seq<Json>, done: seq<Call>, tail: seq<Json>)
  {
    var requests := |r.world.asked| - |w.asked|;
    && r.messages == messages + added + tail
    && w.asked <= r.world.asked && w.calls + done <= r.world.calls
    && |added| % 2 == 0 && |added| <= 2 * requests <= |added| + 2 && requests <= rounds
    && (r.response.Ok? ==> r.world.calls == w.calls + done)
    && (r.response.Raised? ==>
         && 2 * requests == |added| + 2 && |tail| <= 1
         && |r.world.calls| - |w.calls + done| <= |AllUses(tail)|)
    && (r.response.Ok? && 2 * requests == |added| ==> requests == rounds && tail == [])
    && (r.response.Ok? && 2 * requests == |added| + 2 ==>
         && r.response.value.Some? && r.response.value.value.FromBedrock?
         && r.response.value.value.bedrock.stopReason != "tool_use"
         && tail == [r.response.value.value.bedrock.message])
  }

  /** Request `i` holds the input and the rounds so far; its answer stops for tool use with that round's message. */
  ghost predicate RoundScripted(
    converse: BedrockClient, messages: seq<Json>, w: World, r: LoopResult, added: seq<Json>, i: nat)
    requires 2 * i < |added|
  {
    var (a, c) := (|w.asked| + i, |w.calls| + |AllUses(added[..2 * i])|);
    && a < |r.world.asked| && c <= |r.world.calls|
    && r.world.asked[a] == messages + added[..2 * i]
    && var answer := converse(r.world.asked[..a + 1], r.world.calls[..c]);
       answer.Ok? && answer.value.stopReason == "tool_use" && answer.value.message == added[2 * i]
  }

  /** How the loop ends: by a reply that does not stop for tool use, by an exception, or by the round cap. */
  ghost predicate BlocksClosed(
    converse: BedrockClient, messages: seq<Json>, last: Option<Response>, w: World, r: LoopResult,
    added: seq<Json>, done: seq<Call>, tail: seq<Json>)
    requires w.calls + done <= r.world.calls && w.asked <= r.world.asked
  {
    var (n, before) := (|r.world.asked|, r.world.calls[..|w.calls| + |done|]);
    if 2 * (n - |w.asked|) == |added| + 2 then
      var answer := converse(r.world.asked, before);
      && r.world.asked[n - 1] == messages + added
      && (answer.Raised? ==> r.response.Raised? && r.world.calls == before && tail == [])
      && (answer.Ok? ==> tail == [answer.value.message])
      && (r.response.Ok? ==>
           && answer.Ok? && answer.value.stopReason != "tool_use"
           && r.response.value == Some(FromBedrock(answer.value)))
      && (r.response.Raised? && answer.Ok? ==> answer.value.stopReason == "tool_use")
    else
      r.response.Ok? && if added == [] then r.response.value == last else
        exists c :: |w.calls| <= c <= |before| && EndedWith(converse, r, c)
  }

  /** The response is the answer to the last request, which saw the first `c` calls. */
  ghost predicate EndedWith(converse: BedrockClient, r: LoopResult, c: int)
    requires 0 <= c <= |r.world.calls|
  {
    var answer := converse(r.world.asked, r.world.calls[..c]);
    answer.Ok? && r.response == Ok(Some(FromBedrock(answer.value)))
  }

  ghost predicate BlocksAccounted(
    converse: BedrockClient, messages: seq<Json>, rounds: nat, last: Option<Response>, w: World, r: LoopResult,
    added: seq<Json>, done: seq<Call>, tail: seq<Json>)
  {
    && BlocksConserved(messages, w, rounds, r, added, done, tail)
    && (forall i :: 0 <= i < |added| / 2 ==> RoundScripted(converse, messages, w, r, added, i))
    && BlocksClosed(converse, messages, last, w, r, added, done, tail)
  }

  /** What a round that goes on does: all uses of its answer, and their answers in one message. */
  ghost predicate AllUsesRound(
    converse: BedrockClient, messages: seq<Json>, w: World, round: Round, calls: seq<Call>)
  {
    && round.More? && |round.added| == 2
    && round.world.calls == w.calls + calls && round.world.asked == w.asked + [messages]
    && round.added[1] == FollowUp(Blocks(round.added[1]))
    && RunsUses(Uses(Blocks(round.added[0])), calls, Blocks(round.added[1]))
    && var answer := converse(round.world.asked, w.calls);
       && answer.Ok? && answer.value.stopReason == "tool_use" && answer.value.message == round.added[0]
       && round.reply == FromBedrock(answer.value)
  }

  /**
   For every provider, the loop makes at most `rounds` requests, each holding the input and the
   rounds so far; the final list is the input, then per completed round the message that stopped for
   tool use and the answers to all its uses, then the final message, which did not. The host is called
   once per use of the completed rounds, in order, and for nothing else unless the loop raises, when
   the last message may have been answered in part. The response is the answer to the last request.
   */
  lemma {:induction false} BedrockConservation(
    converse: BedrockClient, host: Host, messages: seq<Json>, rounds: nat, last: Option<Response>, w: World)
    returns (added: seq<Json>, done: seq<Call>, tail: seq<Json>)
    ensures BlocksAccounted(
      converse, messages, rounds, last, w, Loop(Bedrock(converse), host, messages, rounds, last, w),
      added, done, tail)
    ensures CallsOf(AllUses(added), done)
    decreases rounds
  {
    added, done, tail := [], [], [];
    if rounds == 0 {
      assert messages + [] + [] == messages && w.calls + [] == w.calls;
    } else {
      var round := RunRound(Bedrock(converse), host, messages, w);
      if round.More? {
        var calls := MoreRunsAllUses(converse, host, messages, w);
        var next := messages + round.added;
        added, done, tail := BedrockConservation(converse, host, next, rounds - 1, Some(round.reply), round.world);
        var r := Loop(Bedrock(converse), host, next, rounds - 1, Some(round.reply), round.world);
        BlocksAccountedStep(converse, messages, rounds, last, w, round, calls, r, added, done, tail);
        added, done := round.added + added, calls + done;
      } else {
        tail := round.added;
        LastBlocksConserved(converse, host, messages, rounds, last, w);
        LastBlocksClose(converse, host, messages, rounds, last, w);
      }
    }
    CallsAreTheUses(added, done);
  }

  lemma {:induction false} BlocksAccountedStep(
    converse: BedrockClient, messages: seq<Json>, rounds: nat, last: Option<Response>, w: World, round: Round,
    calls: seq<Call>, r: LoopResult, added: seq<Json>, done: seq<Call>, tail: seq<Json>)
    requires rounds > 0 && AllUsesRound(converse, messages, w, round, calls)
    requires BlocksAccounted(
      converse, messages + round.added, rounds - 1, Some(round.reply), round.world, r, added, done, tail)
    ensures BlocksAccounted(converse, messages, rounds, last, w, r, round.added + added, calls + done, tail)
  {
    BlocksConservedStep(messages, w, rounds, round.added, calls, round.world, r, added, done, tail);
    RoundScriptedStep(converse, messages, w, round.added, round.world, r, added);
    BlocksClosedStep(
      converse, messages, last, w, round.added, round.reply, round.world, calls, r, added, done, tail);
  }

  lemma {:induction false} AllUsesShift(items: seq<Json>, added: seq<Json>, i: nat)
    requires |items| == 2 && 2 * i <= |added|
    ensures (items + added)[..2 * (i + 1)] == items + added[..2 * i]
    ensures |AllUses((items + added)[..2 * (i + 1)])| == |Uses(Blocks(items[0]))| + |AllUses(added[..2 * i])|
  {
    var before := added[..2 * i];
    assert (items + before)[2..] == before;
  }

  lemma {:induction false} LaterRoundScripted(
    converse: BedrockClient, messages: seq<Json>, w: World, items: seq<Json>, w1: World, r: LoopResult,
    added: seq<Json>, i: nat)
    requires |items| == 2 && 2 * i < |added|
    requires |w1.asked| == |w.asked| + 1 && |w1.calls| == |w.calls| + |Uses(Blocks(items[0]))|
    requires RoundScripted(converse, messages + items, w1, r, added, i)
    ensures RoundScripted(converse, messages, w, r, items + added, i + 1)
  {
    AllUsesShift(items, added, i);
    assert (messages + items) + added[..2 * i] == messages + (items + added[..2 * i]);
    assert (items + added)[2 * (i + 1)] == added[2 * i];
  }

  lemma {:induction false} FirstRoundScripted(
    converse: BedrockClient, messages: seq<Json>, w: World, items: seq<Json>, w1: World, r: LoopResult,
    added: seq<Json>)
    requires |items| == 2 && w1.asked == w.asked + [messages] && w1.asked <= r.world.asked
    requires w.calls <= r.world.calls
    requires var answer := converse(w1.asked, w.calls);
      answer.Ok? && answer.value.stopReason == "tool_use" && answer.value.message == items[0]
    ensures RoundScripted(converse, messages, w, r, items + added, 0)
  {
    assert r.world.asked[..|w.asked| + 1] == w1.asked && r.world.calls[..|w.calls|] == w.calls;
    assert (items + added)[..0] == [] && messages + [] == messages;
  }

  lemma {:induction false} RoundScriptedStep(
    converse: BedrockClient, messages: seq<Json>, w: World, items: seq<Json>, w1: World, r: LoopResult,
    added: seq<Json>)
    requires |items| == 2 && w1.asked == w.asked + [messages] && w1.asked <= r.world.asked
    requires |w1.calls| == |w.calls| + |Uses(Blocks(items[0]))| && w.calls <= r.world.calls
    requires var answer := converse(w1.asked, w.calls);
      answer.Ok? && answer.value.stopReason == "tool_use" && answer.value.message == items[0]
    requires forall i :: 0 <= i < |added| / 2 ==> RoundScripted(converse, messages + items, w1, r, added, i)
    ensures forall i :: 0 <= i < |items + added| / 2 ==> RoundScripted(converse, messages, w, r, items + added, i)
  {
    forall i | 0 <= i < |items + added| / 2 ensures RoundScripted(converse, messages, w, r, items + added, i) {
      if i == 0 {
        FirstRoundScripted(converse, messages, w, items, w1, r, added);
      } else {
        assert RoundScripted(converse, messages + items, w1, r, added, i - 1);
        LaterRoundScripted(converse, messages, w, items, w1, r, added, i - 1);
      }
    }
  }

  lemma {:induction false} BlocksClosedStep(
    converse: BedrockClient, messages: seq<Json>, last: Option<Response>, w: World, items: seq<Json>,
    reply: Response, w1: World, calls: seq<Call>, r: LoopResult, added: seq<Json>, done: seq<Call>, tail: seq<Json>)
    requires |items| == 2 && w1.asked == w.asked + [messages] && w1.calls == w.calls + calls
    requires var answer := converse(w1.asked, w.calls); answer.Ok? && reply == FromBedrock(answer.value)
    requires w1.calls + done <= r.world.calls && w1.asked <= r.world.asked
    requires 2 * (|r.world.asked| - |w1.asked|) in {|added|, |added| + 2}
    requires BlocksClosed(converse, messages + items, Some(reply), w1, r, added, done, tail)
    ensures w.calls + (calls + done) <= r.world.calls && w.asked <= r.world.asked
    ensures BlocksClosed(converse, messages, last, w, r, items + added, calls + done, tail)
  {
    assert w.calls + (calls + done) == w1.calls + done;
    assert messages + (items + added) == (messages + items) + added;
    if 2 * (|r.world.asked| - |w1.asked|) == |added| && added == [] {
      assert r.world.asked == w1.asked && r.world.calls[..|w.calls|] == w.calls;
      assert EndedWith(converse, r, |w.calls|);
    }
  }

  lemma {:induction false} MoreRunsAllUses(
    converse: BedrockClient, host: Host, messages: seq<Json>, w: World)
    returns (calls: seq<Call>)
    requires BedrockRound(converse, host, messages, w).More?
    ensures AllUsesRound(converse, messages, w, BedrockRound(converse, host, messages, w), calls)
  {
    var w1 := Ask(w, messages);
    var blocks := Blocks(converse(w1.asked, w1.calls).value.message);
    var (w2, results) := RunBlocks(host, blocks, w1);
    BlocksConservation(host, blocks, w1);
    calls := w2.calls[|w.calls|..];
    FollowUpHasBlocks(results.value);
  }

  lemma {:induction false} LastBlocksClose(
    converse: BedrockClient, host: Host, messages: seq<Json>, rounds: nat, last: Option<Response>, w: World)
    requires rounds > 0 && !BedrockRound(converse, host, messages, w).More?
    requires var r := Loop(Bedrock(converse), host, messages, rounds, last, w);
      w.calls + [] <= r.world.calls && w.asked <= r.world.asked
    ensures BlocksClosed(converse, messages, last, w, Loop(Bedrock(converse), host, messages, rounds, last, w),
      [], [], BedrockRound(converse, host, messages, w).added)
  {
    var w1 := Ask(w, messages);
    var r := Loop(Bedrock(converse), host, messages, rounds, last, w);
    var answer := converse(w1.asked, w1.calls);
    if answer.Ok? {
      BlocksConservation(host, Blocks(answer.value.message), w1);
    }
    assert messages + [] == messages && r.world.calls[..|w.calls|] == w.calls && r.world.asked == w1.asked;
  }

  lemma {:induction false} LastBlocksConserved(
    converse: BedrockClient, host: Host, messages: seq<Json>, rounds: nat, last: Option<Response>, w: World)
    requires rounds > 0 && !BedrockRound(converse, host, messages, w).More?
    ensures BlocksConserved(messages, w, rounds, Loop(Bedrock(converse), host, messages, rounds, last, w),
      [], [], BedrockRound(converse, host, messages, w).added)
  {
    var w1 := Ask(w, messages);
    var added := BedrockRound(converse, host, messages, w).added;
    assert messages + [] + added == messages + added && w.calls + [] == w.calls;
    var answer := converse(w1.asked, w1.calls);
    if answer.Ok? && answer.value.stopReason == "tool_use" {
      BlocksConservation(host, Blocks(answer.value.message), w1);
      assert AllUses(added) == Uses(Blocks(added[0]));
    }
  }

  lemma {:induction false} AnsweredRoundsStep(items: seq<Json>, calls: seq<Call>, added: seq<Json>, done: seq<Call>)
    requires |items| == 2 && items[1] == FollowUp(Blocks(items[1]))
    requires RunsUses(Uses(Blocks(items[0])), calls, Blocks(items[1])) && AnsweredRounds(added, done)
    ensures AnsweredRounds(items + added, calls + done)
  {
    assert (items + added)[2..] == added;
    assert (calls + done)[..|calls|] == calls && (calls + done)[|calls|..] == done;
  }

  lemma {:induction false} ListsRegroup(messages: seq<Json>, items: seq<Json>, added: seq<Json>, tail: seq<Json>)
    ensures messages + (items + added) + tail == (messages + items) + added + tail
  {
  }

  lemma {:induction false} BlocksConservedStep(
    messages: seq<Json>, w: World, rounds: nat, items: seq<Json>, calls: seq<Call>, w1: World,
    r: LoopResult, added: seq<Json>, done: seq<Call>, tail: seq<Json>)
    requires rounds > 0 && |items| == 2 && items[1] == FollowUp(Blocks(items[1]))
    requires RunsUses(Uses(Blocks(items[0])), calls, Blocks(items[1]))
    requires w1.calls == w.calls + calls && w1.asked == w.asked + [messages]
    requires BlocksConserved(messages + items, w1, rounds - 1, r, added, done, tail)
    ensures BlocksConserved(messages, w, rounds, r, items + added, calls + done, tail)
  {
    AnsweredRoundsStep(items, calls, added, done);
    BlocksCountedStep(messages, w, rounds, items, calls, w1, r, added, done, tail);
  }

  lemma {:induction false} BlocksCountedStep(
    messages: seq<Json>, w: World, rounds: nat, items: seq<Json>, calls: seq<Call>, w1: World,
    r: LoopResult, added: seq<Json>, done: seq<Call>, tail: seq<Json>)
    requires rounds > 0 && |items| == 2
    requires w1.calls == w.calls + calls && w1.asked == w.asked + [messages]
    requires BlocksCounted(messages + items, w1, rounds - 1, r, added, done, tail)
    ensures BlocksCounted(messages, w, rounds, r, items + added, calls + done, tail)
  {
    ListsRegroup(messages, items, added, tail);
    assert w.calls + (calls + done) == w1.calls + done;
  }

  /** A message Converse accepts: its content is a list of blocks. */
  predicate HasBlocks(message: Json) {
    GetOrNull(message, "content").Arr?
  }

  ghost predicate AllBlocks(messages: seq<Json>) {
    forall i :: 0 <= i < |messages| ==> HasBlocks(messages[i])
  }

  /** The content a caller may hand over: plain text or blocks. */
  ghost predicate TextOrBlocks(messages: seq<Json>) {
    forall i :: 0 <= i < |messages| ==> HasBlocks(messages[i]) || GetOrNull(messages[i], "content").Str?
  }

  ghost predicate RepliesWithBlocks(converse: BedrockClient) {
    forall asked, calls :: converse(asked, calls).Ok? ==> HasBlocks(converse(asked, calls).value.message)
  }

  lemma {:induction false} EnsureAllBlocks(messages: seq<Json>)
    requires TextOrBlocks(messages)
    ensures AllBlocks(EnsureAll(messages))
  {
    var r := EnsureAll(messages);
    forall i | 0 <= i < |r| ensures HasBlocks(r[i]) {
      var m := messages[i];
      if GetOrNull(m, "content").Str? {
        LookupSet(m.fields, "content", Arr([TextBlock(GetOrNull(m, "content").s)]), "content");
      }
    }
  }

  /**
   What normalising a message leaves of it: text content becomes one block that holds the text, every
   other field stays where and as it was, and any other message is the same.
   */
  ghost predicate SaysTheSame(m: Json, n: Json) {
    var content := Get(m, "content");
    if content.Some? && content.value.Str? then
      && n.Obj? && |n.fields| == |m.fields|
      && Get(n, "content") == Some(Arr([Obj([Field("text", content.value)])]))
      && forall i :: 0 <= i < |n.fields| ==>
           n.fields[i].key == m.fields[i].key && (m.fields[i].key != "content" ==> n.fields[i] == m.fields[i])
    else n == m
  }

  lemma {:induction false} NormalisedSaysTheSame(m: Json)
    ensures SaysTheSame(m, EnsureContentBlocks(m))
  {
    var content := GetOrNull(m, "content");
    if content.Str? {
      var value := Arr([TextBlock(content.s)]);
      LookupSet(m.fields, "content", value, "content");
      SetKnownKey(m.fields, "content", value);
    }
  }

  /** Every request of a loop starts with the list the loop was entered with. */
  lemma {:induction false} RequestsExtend(
    conn: Connection, host: Host, messages: seq<Json>, rounds: nat, last: Option<Response>, w: World)
    ensures var r := Loop(conn, host, messages, rounds, last, w);
      && w.asked <= r.world.asked
      && (rounds > 0 ==> |r.world.asked| > |w.asked| && r.world.asked[|w.asked|] == messages)
      && forall k :: |w.asked| <= k < |r.world.asked| ==> messages <= r.world.asked[k]
    decreases rounds
  {
    if rounds > 0 {
      var round := RunRound(conn, host, messages, w);
      RoundAsksOnce(conn, host, messages, w);
      if round.More? {
        RequestsExtend(conn, host, messages + round.added, rounds - 1, Some(round.reply), round.world);
        assert messages <= messages + round.added;
      }
    }
  }

  lemma {:induction false} RoundAsksOnce(conn: Connection, host: Host, messages: seq<Json>, w: World)
    ensures RunRound(conn, host, messages, w).world.asked == w.asked + [messages]
  {
    var w1 := Ask(w, messages);
    if conn.Bedrock? && conn.converse(w1.asked, w1.calls).Ok? {
      BlocksConservation(host, Blocks(conn.converse(w1.asked, w1.calls).value.message), w1);
    }
  }

  /**
   Message by message, every request of a whole `chat_with_tools` starts with what the caller's list
   says; the first request is nothing more. OpenAI is sent the caller's messages themselves.
   */
  lemma {:induction false} RequestsSayTheSame(
    conn: Connection, host: Host, messages: seq<Json>, rounds: nat, w: World)
    ensures var asked := ChatWithTools(conn, host, messages, rounds, w).world.asked;
      && (rounds > 0 ==> |asked| > |w.asked| && |asked[|w.asked|]| == |messages|)
      && forall k, i :: |w.asked| <= k < |asked| && 0 <= i < |messages| ==>
           && i < |asked[k]|
           && if conn.OpenAi? then asked[k][i] == messages[i] else SaysTheSame(messages[i], asked[k][i])
  {
    var entered := Entered(conn, messages);
    RequestsExtend(conn, host, entered, rounds, None, w);
    forall i | 0 <= i < |messages|
      ensures if conn.OpenAi? then entered[i] == messages[i] else SaysTheSame(messages[i], entered[i])
    {
      NormalisedSaysTheSame(messages[i]);
    }
    var asked := ChatWithTools(conn, host, messages, rounds, w).world.asked;
    forall k, i | |w.asked| <= k < |asked| && 0 <= i < |messages|
      ensures i < |asked[k]| && asked[k][i] == entered[i]
    {
      assert entered <= asked[k];
    }
  }

  lemma {:induction false} FollowUpHasBlocks(results: seq<Json>)
    ensures HasBlocks(FollowUp(results)) && Blocks(FollowUp(results)) == results
  {
    var fields := FollowUp(results).fields;
    assert |"role"| != |"content"|;
    LookupPair(fields[0], fields[1], "content");
  }

  /** Every list passed to Converse, in every round, has block content only. */
  lemma {:induction false} BedrockRequestsAreBlocks(
    converse: BedrockClient, host: Host, messages: seq<Json>, rounds: nat, last: Option<Response>, w: World)
    requires RepliesWithBlocks(converse) && AllBlocks(messages)
    ensures var r := Loop(Bedrock(converse), host, messages, rounds, last, w);
      && w.asked <= r.world.asked && |r.world.asked| - |w.asked| <= rounds
      && (forall k :: |w.asked| <= k < |r.world.asked| ==> AllBlocks(r.world.asked[k]))
      && AllBlocks(r.messages)
    decreases rounds
  {
    if rounds > 0 {
      var round := RunRound(Bedrock(converse), host, messages, w);
      var answer := converse(Ask(w, messages).asked, w.calls);
      if answer.Ok? {
        BlocksConservation(host, Blocks(answer.value.message), Ask(w, messages));
        if round.More? {
          FollowUpHasBlocks(Blocks(round.added[1]));
          FollowUpHasBlocks(RunBlocks(host, Blocks(answer.value.message), Ask(w, messages)).1.value);
          BedrockRequestsAreBlocks(converse, host, messages + round.added, rounds - 1, Some(round.reply), round.world);
        }
      }
    }
  }

  /** The same for a whole `chat_with_tools`, over any mix of replayed text and blocks. */
  lemma {:induction false} ConverseSeesBlocksOnly(
    converse: BedrockClient, host: Host, messages: seq<Json>, rounds: nat, w: World)
    requires RepliesWithBlocks(converse) && TextOrBlocks(messages)
    ensures var r := ChatWithTools(Bedrock(converse), host, messages, rounds, w);
      forall k :: |w.asked| <= k < |r.world.asked| ==> AllBlocks(r.world.asked[k])
  {
    EnsureAllBlocks(messages);
    BedrockRequestsAreBlocks(converse, host, EnsureAll(messages), rounds, None, w);
  }
}
