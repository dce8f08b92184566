/** What part of a conversation the model is sent: the count window and the budget combined. */
module Window {
  import opened Results
  import opened JsonValues
  import opened HistoryBudget
  import opened Handlers
  import opened Gate
  import opened Store
  import opened Session

  /** The conversation as messages, with the new prompt at the end. */
  function WholeConversation(s: StoreState, id: int, prompt: Json): seq<Json> {
    StripRows(Log(s, id)) + [prompt]
  }

  /** A suffix a turn may send: within the count window, and the prompt alone or within the budget. */
  predicate Sendable(cfg: Config, all: seq<Json>, k: nat)
    requires k < |all|
  {
    && |all| - k <= cfg.maxHistory + 1
    && (Active(cfg.maxTokens) ==> HistoryBudget.Fits(all, k, cfg.maxTokens.value))
  }

  /** The longest of the suffixes that may be sent. */
  ghost predicate LongestSendable(cfg: Config, all: seq<Json>, bounded: seq<Json>) {
    var k := |all| - |bounded|;
    && 0 <= k < |all| && bounded == all[k..] && Sendable(cfg, all, k)
    && forall j :: 0 <= j < k ==> !Sendable(cfg, all, j)
  }

  lemma {:induction false} StripRowsSplits(a: seq<Row>, b: seq<Row>)
    ensures StripRows(a + b) == StripRows(a) + StripRows(b) && |StripRows(a)| == |a|
  {
    if a == [] {
      assert a + b == b;
    } else {
      assert (a + b)[1..] == a[1..] + b;
      StripRowsSplits(a[1..], b);
    }
  }

  lemma RecentIsSuffix(log: seq<Row>, n: nat)
    ensures |StripRows(log)| == |log| && StripRows(LastN(log, n)) == LastN(StripRows(log), n)
  {
    StripRowsSplits(log, []);
    assert log + [] == log;
    if n < |log| {
      var cut := |log| - n;
      assert log == log[..cut] + log[cut..];
      StripRowsSplits(log[..cut], log[cut..]);
    }
  }

  /** A suffix of a suffix, and the suffixes that fit in it. */
  lemma TruncatedWindow(cfg: Config, all: seq<Json>, start: nat)
    requires start < |all|
    requires start == (if |all| > cfg.maxHistory + 1 then |all| - (cfg.maxHistory + 1) else 0)
    ensures LongestSendable(cfg, all, Truncated(all[start..], cfg.maxTokens))
  {
    if Active(cfg.maxTokens) {
      var window := all[start..];
      LongestFittingOptimal(window, cfg.maxTokens.value);
      var bounded := Truncated(window, cfg.maxTokens);
      var i := |window| - |bounded|;
      assert window[i..] == all[start + i..];
      forall j | 0 <= j < start + i ensures !Sendable(cfg, all, j) {
        if j >= start {
          assert window[j - start..] == all[j..];
          assert !HistoryBudget.Fits(window, j - start, cfg.maxTokens.value);
        }
      }
    }
  }

  /** What a prepared turn holds, in terms of the stored log. */
  lemma PreparedFromLog(cfg: Config, s: StoreState, hash: string, command: string)
    requires cfg.replayer.None? && Prepare(cfg, s, hash, command).1.Ok?
    ensures var p := Prepare(cfg, s, hash, command).1.value;
      && p.prompt == BuildUserPrompt(p.kind, command)
      && p.bounded == Truncated(StripRows(LastN(Log(s, p.id), cfg.maxHistory)) + [p.prompt], cfg.maxTokens)
      && ScrubHistory(cfg.scrub, p.bounded) == Ok(p.sent)
  {
  }

  /** The count window and the prompt, as one slice of the whole conversation. */
  lemma WindowIsSuffix(items: seq<Json>, n: nat, prompt: Json)
    ensures var all := items + [prompt];
      LastN(items, n) + [prompt] == all[if |all| > n + 1 then |all| - (n + 1) else 0..]
  {
  }

  lemma WindowOfLog(cfg: Config, log: seq<Row>, prompt: Json)
    ensures LongestSendable(cfg, StripRows(log) + [prompt],
      Truncated(StripRows(LastN(log, cfg.maxHistory)) + [prompt], cfg.maxTokens))
  {
    var all := StripRows(log) + [prompt];
    RecentIsSuffix(log, cfg.maxHistory);
    WindowIsSuffix(StripRows(log), cfg.maxHistory, prompt);
    TruncatedWindow(cfg, all, if |all| > cfg.maxHistory + 1 then |all| - (cfg.maxHistory + 1) else 0);
  }

  /** The list is the longest sendable suffix, and the scrub touches prior messages one by one. */
  ghost predicate BestWindow(cfg: Config, s: StoreState, p: Prepared) {
    && LongestSendable(cfg, WholeConversation(s, p.id, p.prompt), p.bounded)
    && |p.sent| == |p.bounded| && p.sent[|p.sent| - 1] == p.prompt
    && forall i :: 0 <= i < |p.sent| - 1 ==> Ok(p.sent[i]) == cfg.scrub(p.bounded[i])
  }

  /**
   Without a replayer, the list before the scrub is the longest suffix of the whole
   conversation that has at most `maxHistory` messages before the prompt and is within the
   budget, or the prompt alone. The scrub keeps its order, its length and its last message.
   */
  lemma CombinedWindow(cfg: Config, s: StoreState, hash: string, command: string)
    requires cfg.replayer.None? && Prepare(cfg, s, hash, command).1.Ok?
    ensures var p := Prepare(cfg, s, hash, command).1.value;
      p.prompt == BuildUserPrompt(p.kind, command) && BestWindow(cfg, s, p)
  {
    PreparedFromLog(cfg, s, hash, command);
    var p := Prepare(cfg, s, hash, command).1.value;
    WindowOfLog(cfg, Log(s, p.id), p.prompt);
    ScrubHistoryShape(cfg.scrub, p.bounded);
  }
}
