/** Metadata capture: what it adds to a tool loop, and what it never changes. */
module Capture {
  import opened Results
  import opened JsonValues
  import opened Fragments
  import opened World
  import opened Rounds

  // ---- capture is a side channel --------------------------------------

  /** The same host without a metadata hook. */
  function Bare(host: Host): Host {
    host.(hook := None)
  }

  predicate SameOutside(a: World, b: World) {
    a.asked == b.asked && a.calls == b.calls
  }

  /** No call from index `start` on gets an answer that cannot be taken in. */
  ghost predicate WellAnswered(host: Host, calls: seq<Call>, start: nat) {
    host.hook.Some? ==>
      forall k :: start <= k < |calls| && calls[k].result.Ok?
        ==> Usable(host.hook.value(calls[..k + 1], calls[k].name, calls[k].result.value))
  }

  lemma WellAnsweredSplits(host: Host, calls: seq<Call>, more: seq<Call>, start: nat)
    requires start <= |calls| && calls <= more
    ensures WellAnswered(host, more, start) <==>
      WellAnswered(host, calls, start) && WellAnswered(host, more, |calls|)
  {
    assert forall k :: 0 <= k < |calls| ==> calls[..k + 1] == more[..k + 1] && calls[k] == more[k];
  }

  lemma InvokeBare(host: Host, w: World, bare: World, name: Json, args: Json)
    requires SameOutside(w, bare)
    ensures var (w1, r) := Invoke(host, w, name, args);
      var (b1, p) := Invoke(Bare(host), bare, name, args);
      && SameOutside(w1, b1) && bare.calls <= b1.calls
      && r == if WellAnswered(host, b1.calls, |bare.calls|) then p else Raised
  {
    var (b1, p) := Invoke(Bare(host), bare, name, args);
    assert b1.calls[..|bare.calls| + 1] == b1.calls;
    assert b1.calls[|bare.calls|] == Call(name, args, p);
  }

  lemma {:induction false} BlocksBare(host: Host, blocks: seq<Json>, w: World, bare: World)
    requires SameOutside(w, bare)
    ensures var (w1, r) := RunBlocks(host, blocks, w);
      var (b1, p) := RunBlocks(Bare(host), blocks, bare);
      && bare.calls <= b1.calls && w1.calls <= b1.calls && w1.asked == b1.asked == bare.asked
      && (if WellAnswered(host, b1.calls, |bare.calls|) then SameOutside(w1, b1) && r == p else r == Raised)
  {
    if blocks != [] {
      var use := ToolUse(blocks[0]);
      if Truthy(use) {
        var (name, args) := (GetOrNull(use, "name"), OrEmptyDict(GetOrNull(use, "input")));
        InvokeBare(host, w, bare, name, args);
        var (w1, r) := Invoke(host, w, name, args);
        var (b1, p) := Invoke(Bare(host), bare, name, args);
        if p.Ok? {
          BlocksBare(host, blocks[1..], w1, b1);
          WellAnsweredSplits(host, b1.calls, RunBlocks(Bare(host), blocks[1..], b1).0.calls, |bare.calls|);
        }
      } else {
        BlocksBare(host, blocks[1..], w, bare);
      }
    }
  }

  /** Two rounds that differ at most in the accumulators. */
  predicate SameRound(r: Round, p: Round) {
    && SameOutside(r.world, p.world) && r.added == p.added
    && (r.Crash? <==> p.Crash?) && (r.More? <==> p.More?)
    && (!r.Crash? ==> r.reply == p.reply)
  }

  lemma RoundBare(conn: Connection, host: Host, messages: seq<Json>, w: World, bare: World)
    requires SameOutside(w, bare)
    ensures var (r, p) := (RunRound(conn, host, messages, w), RunRound(conn, Bare(host), messages, bare));
      && bare.calls <= p.world.calls && r.world.calls <= p.world.calls
      && if WellAnswered(host, p.world.calls, |bare.calls|) then SameRound(r, p) else r.Crash?
  {
    var (w1, b1) := (Ask(w, messages), Ask(bare, messages));
    match conn
    case OpenAi(create) =>
      var answer := create(w1.asked, w1.calls);
      if answer.Ok? && FirstCall(answer.value.output).Some? {
        var item := FirstCall(answer.value.output).value;
        InvokeBare(host, w1, b1, GetOrNull(item, "name"), ParseArguments(GetOrNull(item, "arguments")));
      }
    case Bedrock(converse) =>
      var answer := converse(w1.asked, w1.calls);
      if answer.Ok? {
        BlocksBare(host, Blocks(answer.value.message), w1, b1);
      }
  }

  lemma {:induction false} LoopExtendsCalls(
    conn: Connection, host: Host, messages: seq<Json>, rounds: nat, last: Option<Response>, w: World)
    requires host.hook.None?
    ensures w.calls <= Loop(conn, host, messages, rounds, last, w).world.calls
    decreases rounds
  {
    if rounds > 0 {
      RoundBare(conn, host, messages, w, w);
      var p := RunRound(conn, host, messages, w);
      assert Bare(host) == host;
      if p.More? {
        LoopExtendsCalls(conn, host, messages + p.added, rounds - 1, Some(p.reply), p.world);
      }
    }
  }

  /**
   A tool loop with a metadata hook behaves as the loop without one (same transcript, same
   response, same requests and host calls) exactly as long as every answer can be taken in: the
   hook raises, answers something falsy, or a dict whose `refs` can be iterated and whose payload
   is a dict or a list of pairs, if they are truthy at all. At the first other answer the loop
   raises, after the calls made so far.
   */
  lemma {:induction false} CaptureIsTransparent(
    conn: Connection, host: Host, messages: seq<Json>, rounds: nat, last: Option<Response>, w: World, bare: World)
    requires SameOutside(w, bare)
    ensures var r := Loop(conn, host, messages, rounds, last, w);
      var p := Loop(conn, Bare(host), messages, rounds, last, bare);
      if WellAnswered(host, p.world.calls, |bare.calls|)
        then r.response == p.response && r.messages == p.messages && SameOutside(r.world, p.world)
        else r.response.Raised? && r.world.calls <= p.world.calls
    decreases rounds
  {
    if rounds > 0 {
      RoundBare(conn, host, messages, w, bare);
      var (r, p) := (RunRound(conn, host, messages, w), RunRound(conn, Bare(host), messages, bare));
      if p.More? {
        var more := messages + p.added;
        LoopExtendsCalls(conn, Bare(host), more, rounds - 1, Some(p.reply), p.world);
        var end := Loop(conn, Bare(host), more, rounds - 1, Some(p.reply), p.world).world.calls;
        WellAnsweredSplits(host, p.world.calls, end, |bare.calls|);
        if r.More? {
          CaptureIsTransparent(conn, host, more, rounds - 1, Some(p.reply), r.world, p.world);
        }
      }
    }
  }

  // ---- the accumulators are a fold over the calls ------------------------

  /** The hook's answer about the last of `calls`. */
  function LastAnswer(host: Host, calls: seq<Call>): HookReply
    requires calls != []
  {
    var call := calls[|calls| - 1];
    if call.result.Ok? then HookAnswer(host, calls, call.name, call.result.value) else Answer(Null)
  }

  function CapturedRefs(host: Host, calls: seq<Call>, start: nat): seq<Json> {
    if |calls| <= start then []
    else CapturedRefs(host, calls[..|calls| - 1], start) + RefsOf(LastAnswer(host, calls))
  }

  function CapturedPayload(host: Host, calls: seq<Call>, start: nat): Dict {
    if |calls| <= start then []
    else Update(CapturedPayload(host, calls[..|calls| - 1], start), PairsOf(LastAnswer(host, calls)))
  }

  ghost predicate Faithful(host: Host, start: nat, w: World) {
    && start <= |w.calls|
    && w.refs == CapturedRefs(host, w.calls, start)
    && w.payload == CapturedPayload(host, w.calls, start)
  }

  lemma InvokeFaithful(host: Host, start: nat, w: World, name: Json, args: Json)
    requires Faithful(host, start, w)
    ensures Faithful(host, start, Invoke(host, w, name, args).0)
  {
    var w1 := Invoke(host, w, name, args).0;
    assert w1.calls[..|w1.calls| - 1] == w.calls;
  }

  lemma {:induction false} BlocksFaithful(host: Host, start: nat, blocks: seq<Json>, w: World)
    requires Faithful(host, start, w)
    ensures Faithful(host, start, RunBlocks(host, blocks, w).0)
  {
    if blocks != [] {
      var use := ToolUse(blocks[0]);
      if Truthy(use) {
        var (name, args) := (GetOrNull(use, "name"), OrEmptyDict(GetOrNull(use, "input")));
        InvokeFaithful(host, start, w, name, args);
        BlocksFaithful(host, start, blocks[1..], Invoke(host, w, name, args).0);
      } else {
        BlocksFaithful(host, start, blocks[1..], w);
      }
    }
  }

  lemma RoundFaithful(conn: Connection, host: Host, start: nat, messages: seq<Json>, w: World)
    requires Faithful(host, start, w)
    ensures Faithful(host, start, RunRound(conn, host, messages, w).world)
  {
    var w1 := Ask(w, messages);
    match conn
    case OpenAi(create) =>
      var answer := create(w1.asked, w1.calls);
      if answer.Ok? && FirstCall(answer.value.output).Some? {
        var item := FirstCall(answer.value.output).value;
        InvokeFaithful(host, start, w1, GetOrNull(item, "name"), ParseArguments(GetOrNull(item, "arguments")));
      }
    case Bedrock(converse) =>
      var answer := converse(w1.asked, w1.calls);
      if answer.Ok? {
        BlocksFaithful(host, start, Blocks(answer.value.message), w1);
      }
  }

  /** After any loop the accumulators are the fold of the hook over the calls of the turn. */
  lemma {:induction false} LoopFaithful(
    conn: Connection, host: Host, start: nat, messages: seq<Json>, rounds: nat, last: Option<Response>, w: World)
    requires Faithful(host, start, w)
    ensures Faithful(host, start, Loop(conn, host, messages, rounds, last, w).world)
    decreases rounds
  {
    if rounds > 0 {
      RoundFaithful(conn, host, start, messages, w);
      var r := RunRound(conn, host, messages, w);
      if r.More? {
        LoopFaithful(conn, host, start, messages + r.added, rounds - 1, Some(r.reply), r.world);
      }
    }
  }

  /** The value of `key` in the latest fragment that has it. */
  function LastWrite(host: Host, calls: seq<Call>, start: nat, key: string): Option<Json> {
    if |calls| <= start then None else
    var latest := LastValue(PairsOf(LastAnswer(host, calls)), key);
    if latest.Some? then latest else LastWrite(host, calls[..|calls| - 1], start, key)
  }

  /** The merged payload holds, key by key, what the latest fragment said. */
  lemma {:induction false} PayloadIsLastWrite(host: Host, calls: seq<Call>, start: nat, key: string)
    ensures Lookup(CapturedPayload(host, calls, start), key) == LastWrite(host, calls, start, key)
  {
    if |calls| > start {
      var before := calls[..|calls| - 1];
      PayloadIsLastWrite(host, before, start, key);
      LookupUpdate(CapturedPayload(host, before, start), PairsOf(LastAnswer(host, calls)), key);
    }
  }

  // ---- answers of the documented shape ---------------------------------------

  function Concatenated(lists: seq<seq<Json>>): seq<Json> {
    if lists == [] then [] else Concatenated(lists[..|lists| - 1]) + lists[|lists| - 1]
  }

  /** The value of `key` in the latest of the dicts that has it. */
  function Latest(dicts: seq<Dict>, key: string): Option<Json> {
    if dicts == [] then None
    else if Lookup(dicts[|dicts| - 1], key).Some? then Lookup(dicts[|dicts| - 1], key)
    else Latest(dicts[..|dicts| - 1], key)
  }

  /** What the extractor said about call `k`, which it saw with the calls up to it. */
  ghost predicate SaidAbout(host: Host, calls: seq<Call>, k: nat, refs: seq<Json>, payload: Dict)
    requires k < |calls|
  {
    && UniqueKeys(payload)
    && if calls[k].result.Raised? || host.hook.None? then refs == [] && payload == []
       else Documented(host.hook.value(calls[..k + 1], calls[k].name, calls[k].result.value), refs, payload)
  }

  /** The same for every call from `start` on. */
  ghost predicate Said(host: Host, calls: seq<Call>, start: nat, refs: seq<seq<Json>>, payloads: seq<Dict>) {
    && start <= |calls| && |refs| == |payloads| == |calls| - start
    && forall k :: 0 <= k < |refs| ==> SaidAbout(host, calls, start + k, refs[k], payloads[k])
  }

  lemma SaidBefore(host: Host, calls: seq<Call>, start: nat, refs: seq<seq<Json>>, payloads: seq<Dict>)
    requires Said(host, calls, start, refs, payloads) && |calls| > start
    ensures var n := |refs| - 1; Said(host, calls[..|calls| - 1], start, refs[..n], payloads[..n])
  {
    var (n, before) := (|refs| - 1, calls[..|calls| - 1]);
    forall k | 0 <= k < n ensures SaidAbout(host, before, start + k, refs[..n][k], payloads[..n][k]) {
      assert SaidAbout(host, calls, start + k, refs[k], payloads[k]);
      assert before[..start + k + 1] == calls[..start + k + 1];
    }
  }

  lemma SaidLast(host: Host, calls: seq<Call>, k: nat, refs: seq<Json>, payload: Dict)
    requires |calls| == k + 1 && SaidAbout(host, calls, k, refs, payload)
    ensures var answer := LastAnswer(host, calls);
      Usable(answer) && RefsOf(answer) == refs && PairsOf(answer) == payload
  {
    assert calls[..k + 1] == calls;
    if calls[k].result.Ok? && host.hook.Some? {
      DocumentedIsTaken(LastAnswer(host, calls), refs, payload);
    }
  }

  /** Everything that was said is captured: all references in call order ... */
  lemma {:induction false} SaidRefsAreCaptured(
    host: Host, calls: seq<Call>, start: nat, refs: seq<seq<Json>>, payloads: seq<Dict>)
    requires Said(host, calls, start, refs, payloads)
    ensures CapturedRefs(host, calls, start) == Concatenated(refs)
    decreases |calls|
  {
    if |calls| > start {
      var n := |refs| - 1;
      SaidBefore(host, calls, start, refs, payloads);
      SaidRefsAreCaptured(host, calls[..|calls| - 1], start, refs[..n], payloads[..n]);
      assert SaidAbout(host, calls, start + n, refs[n], payloads[n]);
      SaidLast(host, calls, start + n, refs[n], payloads[n]);
    }
  }

  /** ... and of each payload key the latest value. */
  lemma {:induction false} SaidPayloadsAreCaptured(
    host: Host, calls: seq<Call>, start: nat, refs: seq<seq<Json>>, payloads: seq<Dict>, key: string)
    requires Said(host, calls, start, refs, payloads)
    ensures Lookup(CapturedPayload(host, calls, start), key) == Latest(payloads, key)
    decreases |calls|
  {
    if |calls| > start {
      var (n, before) := (|refs| - 1, calls[..|calls| - 1]);
      SaidBefore(host, calls, start, refs, payloads);
      SaidPayloadsAreCaptured(host, before, start, refs[..n], payloads[..n], key);
      assert SaidAbout(host, calls, start + n, refs[n], payloads[n]);
      SaidLast(host, calls, start + n, refs[n], payloads[n]);
      LookupUpdate(CapturedPayload(host, before, start), payloads[n], key);
      UniqueLast(payloads[n], key);
    }
  }

  lemma {:induction false} UniqueLast(d: Dict, key: string)
    requires UniqueKeys(d)
    ensures LastValue(d, key) == Lookup(d, key)
  {
    if d != [] {
      UniqueLast(d[1..], key);
      LookupFinds(d[1..], key);
    }
  }

  /** After any loop the accumulators hold all that was said about the calls it made. */
  lemma LoopCapturesAll(
    conn: Connection, host: Host, messages: seq<Json>, rounds: nat, last: Option<Response>, w: World,
    refs: seq<seq<Json>>, payloads: seq<Dict>, key: string)
    requires w.refs == [] && w.payload == []
    requires Said(host, Loop(conn, host, messages, rounds, last, w).world.calls, |w.calls|, refs, payloads)
    ensures var r := Loop(conn, host, messages, rounds, last, w);
      r.world.refs == Concatenated(refs) && Lookup(r.world.payload, key) == Latest(payloads, key)
  {
    LoopFaithful(conn, host, |w.calls|, messages, rounds, last, w);
    var calls := Loop(conn, host, messages, rounds, last, w).world.calls;
    SaidRefsAreCaptured(host, calls, |w.calls|, refs, payloads);
    SaidPayloadsAreCaptured(host, calls, |w.calls|, refs, payloads, key);
  }
}
