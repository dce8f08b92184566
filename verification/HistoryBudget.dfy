/** Token-budget truncation of a message list (`llm_core_lib/chat/history_budget.py`). */
module HistoryBudget {
  import opened Results
  import opened JsonValues
  import opened JsonText

  const CHARS_PER_TOKEN := 4

  function EstimateTokens(message: Json): nat {
    if message.Null? then 0
    else
      var text := Dumps(message, false);
      if |text| / CHARS_PER_TOKEN < 1 then 1 else |text| / CHARS_PER_TOKEN
  }

  function Cost(messages: seq<Json>): nat {
    if messages == [] then 0 else EstimateTokens(messages[0]) + Cost(messages[1..])
  }

  /** A budget of `None`, zero or less switches truncation off. */
  predicate Active(maxTokens: Option<int>) {
    maxTokens.Some? && maxTokens.value > 0
  }

  /** The declarative reading: drop from the front until the rest fits or is one message. */
  function LongestFitting(messages: seq<Json>, budget: int): seq<Json> {
    if |messages| <= 1 || Cost(messages) <= budget then messages
    else LongestFitting(messages[1..], budget)
  }

  function Truncated(messages: seq<Json>, maxTokens: Option<int>): seq<Json> {
    if messages == [] || !Active(maxTokens) then messages else LongestFitting(messages, maxTokens.value)
  }

  function Reversed(s: seq<Json>): seq<Json> {
    seq(|s|, i requires 0 <= i < |s| => s[|s| - 1 - i])
  }

  /** The reverse loop of the source keeps exactly the longest fitting suffix. */
  method TruncateToTokenBudget(messages: seq<Json>, maxTokens: Option<int>) returns (kept: seq<Json>)
    ensures kept == Truncated(messages, maxTokens)
  {
    if messages == [] || !Active(maxTokens) {
      return messages;
    }
    var budget := maxTokens.value;
    var tail := messages[|messages| - 1];
    var keptReversed := [tail];
    var running := EstimateTokens(tail);
    var i := |messages| - 1;
    assert messages[i..] == [tail];
    while i > 0
      invariant 0 <= i < |messages|
      invariant Reversed(keptReversed) == messages[i..]
      invariant running == Cost(messages[i..])
      invariant i == |messages| - 1 || running <= budget
    {
      var cost := EstimateTokens(messages[i - 1]);
      assert messages[i - 1..] == [messages[i - 1]] + messages[i..];
      if running + cost > budget {
        break;
      }
      assert Reversed(keptReversed + [messages[i - 1]]) == [messages[i - 1]] + Reversed(keptReversed);
      keptReversed := keptReversed + [messages[i - 1]];
      running := running + cost;
      i := i - 1;
    }
    kept := Reversed(keptReversed);
    LongestFittingFrom(messages, budget, i);
  }

  lemma {:induction false} CostSplits(a: seq<Json>, b: seq<Json>)
    ensures Cost(a + b) == Cost(a) + Cost(b)
  {
    if a == [] {
      assert a + b == b;
    } else {
      assert (a + b)[1..] == a[1..] + b;
      CostSplits(a[1..], b);
    }
  }

  lemma CostOfSuffix(messages: seq<Json>, k: nat)
    requires k <= |messages|
    ensures Cost(messages[k..]) <= Cost(messages)
  {
    assert messages == messages[..k] + messages[k..];
    CostSplits(messages[..k], messages[k..]);
  }

  /** A suffix that fits (or is the last message) and cannot grow is the longest fitting one. */
  lemma {:induction false} LongestFittingFrom(messages: seq<Json>, budget: int, k: nat)
    requires k < |messages|
    requires k == |messages| - 1 || Cost(messages[k..]) <= budget
    requires k > 0 ==> Cost(messages[k - 1..]) > budget
    ensures LongestFitting(messages, budget) == messages[k..]
  {
    if k == 0 {
      assert messages[0..] == messages;
    } else {
      CostOfSuffix(messages, k - 1);
      assert messages[1..][k - 1..] == messages[k..];
      if k > 1 {
        assert messages[1..][k - 2..] == messages[k - 1..];
      }
      LongestFittingFrom(messages[1..], budget, k - 1);
    }
  }

  /** What the truncator may keep: the last message alone, or a suffix within the budget. */
  predicate Fits(messages: seq<Json>, k: nat, budget: int)
    requires k < |messages|
  {
    k == |messages| - 1 || Cost(messages[k..]) <= budget
  }

  /** The kept list is the longest of all the suffixes that fit. */
  lemma {:induction false} LongestFittingOptimal(messages: seq<Json>, budget: int)
    requires messages != []
    ensures var k := |messages| - |LongestFitting(messages, budget)|;
      && 0 <= k < |messages|
      && LongestFitting(messages, budget) == messages[k..]
      && Fits(messages, k, budget)
      && forall j :: 0 <= j < k ==> !Fits(messages, j, budget)
  {
    if |messages| <= 1 || Cost(messages) <= budget {
      assert messages[0..] == messages;
    } else {
      var rest := messages[1..];
      LongestFittingOptimal(rest, budget);
      var k := |rest| - |LongestFitting(rest, budget)|;
      assert rest[k..] == messages[k + 1..];
      forall j | 0 <= j < k + 1 ensures !Fits(messages, j, budget) {
        if j == 0 {
          assert messages[0..] == messages;
        } else {
          assert rest[j - 1..] == messages[j..];
          assert !Fits(rest, j - 1, budget);
        }
      }
    }
  }

  // ---- algebra ----------------------------------------------------

  function Min(a: int, b: int): int {
    if a <= b then a else b
  }

  lemma {:induction false} FittingTwice(messages: seq<Json>, b1: int, b2: int)
    requires messages != []
    ensures LongestFitting(LongestFitting(messages, b1), b2) == LongestFitting(messages, Min(b1, b2))
  {
    if |messages| <= 1 || Cost(messages) <= b1 {
    } else {
      FittingTwice(messages[1..], b1, b2);
    }
  }

  /** Truncating twice is truncating once by the smaller budget, in either order. */
  lemma TruncateTwice(messages: seq<Json>, b1: int, b2: int)
    requires b1 > 0 && b2 > 0
    ensures Truncated(Truncated(messages, Some(b1)), Some(b2)) == Truncated(messages, Some(Min(b1, b2)))
    ensures Truncated(Truncated(messages, Some(b1)), Some(b2)) == Truncated(Truncated(messages, Some(b2)), Some(b1))
    ensures Truncated(Truncated(messages, Some(b1)), Some(b1)) == Truncated(messages, Some(b1))
  {
    if messages != [] {
      LongestFittingOptimal(messages, b1);
      LongestFittingOptimal(messages, b2);
      FittingTwice(messages, b1, b2);
      FittingTwice(messages, b2, b1);
      FittingTwice(messages, b1, b1);
    }
  }

  /** A larger budget keeps everything a smaller one keeps. */
  lemma TruncateMonotone(messages: seq<Json>, b1: int, b2: int)
    requires 0 < b1 <= b2
    ensures var (small, large) := (Truncated(messages, Some(b1)), Truncated(messages, Some(b2)));
      |small| <= |large| && small == large[|large| - |small|..]
  {
    TruncateTwice(messages, b2, b1);
    var large := Truncated(messages, Some(b2));
    if large != [] {
      LongestFittingOptimal(large, b1);
    }
  }

  // ---- what a token budget says about characters ---------------------

  function Chars(messages: seq<Json>): nat {
    if messages == [] then 0 else |Dumps(messages[0], false)| + Chars(messages[1..])
  }

  /** A message that prints to four characters or more. */
  predicate Countable(m: Json) {
    !m.Null? && |Dumps(m, false)| >= 4
  }

  /** Four characters make a token and what is left over counts for nothing; but no message is free. */
  lemma EstimateRoundsDown(m: Json)
    ensures Countable(m) ==> 4 * EstimateTokens(m) <= |Dumps(m, false)| <= 4 * EstimateTokens(m) + 3
    ensures !Countable(m) ==> EstimateTokens(m) == if m.Null? then 0 else 1
  {
  }

  lemma {:induction false} CostRoundsDown(messages: seq<Json>)
    requires forall i :: 0 <= i < |messages| ==> Countable(messages[i])
    ensures 4 * Cost(messages) <= Chars(messages) <= 4 * Cost(messages) + 3 * |messages|
  {
    if messages != [] {
      EstimateRoundsDown(messages[0]);
      CostRoundsDown(messages[1..]);
    }
  }

  /** A suffix of countable messages with at most four characters per token of the budget is always kept. */
  lemma ShortSuffixIsKept(messages: seq<Json>, budget: int, k: nat)
    requires budget > 0 && k <= |messages|
    requires forall i :: k <= i < |messages| ==> Countable(messages[i])
    requires Chars(messages[k..]) <= 4 * budget + 3
    ensures var kept := Truncated(messages, Some(budget));
      |kept| >= |messages| - k && kept[|kept| - (|messages| - k)..] == messages[k..]
  {
    if k < |messages| {
      CostRoundsDown(messages[k..]);
      LongestFittingOptimal(messages, budget);
      assert Fits(messages, k, budget);
    }
  }

  /** Without a positive budget nothing is dropped. */
  lemma NoBudgetKeepsAll(messages: seq<Json>, maxTokens: Option<int>)
    requires maxTokens.None? || maxTokens.value <= 0
    ensures Truncated(messages, maxTokens) == messages
  {
  }

  lemma {:induction false} CostBoundsChars(messages: seq<Json>)
    requires forall i :: 0 <= i < |messages| ==> !messages[i].Null?
    ensures |messages| <= Cost(messages) && Chars(messages) <= 7 * Cost(messages)
  {
    if messages != [] {
      CostBoundsChars(messages[1..]);
    }
  }

  /**
   The truncated list is within the budget exactly when the last message is, and a list
   within budget B has at most B messages and 7 * B serialised characters.
   */
  lemma BudgetBoundsChars(messages: seq<Json>, budget: int)
    requires budget > 0 && messages != []
    requires forall i :: 0 <= i < |messages| ==> !messages[i].Null?
    ensures var kept := Truncated(messages, Some(budget));
      && (Cost(kept) <= budget <==> EstimateTokens(messages[|messages| - 1]) <= budget)
      && (Cost(kept) <= budget ==> |kept| <= budget && Chars(kept) <= 7 * budget)
  {
    var kept := Truncated(messages, Some(budget));
    var last := messages[|messages| - 1];
    LongestFittingOptimal(messages, budget);
    var k := |messages| - |kept|;
    assert kept[|kept| - 1..] == [last];
    CostOfSuffix(kept, |kept| - 1);
    assert Cost([last]) == EstimateTokens(last);
    forall i | 0 <= i < |kept| ensures !kept[i].Null? {
      assert kept[i] == messages[k + i];
    }
    CostBoundsChars(kept);
    if k == |messages| - 1 {
      assert kept == [last];
    }
  }
}
