/**
 Compact replay of prior turns: `_replay_message_to_input_shape` of
 `llm_core_lib/chat/chat_session.py`, and what a replayed payload really costs.
 */
module Replay {
  import opened Results
  import opened JsonValues
  import opened JsonText
  import opened HistoryBudget

  /** One entry of the host's replay; a missing text is the empty one, a missing payload `Null`. */
  datatype ReplayEntry = Entry(role: string, text: string, payload: Json) | NotADict

  const REPLAY_PAYLOAD_MAX_CHARS := 1200
  const TRUNCATION_MARK: string := "\U{2026}(truncated)"

  // ---- json.dumps(..., sort_keys=True) ----------------------------

  /** Python's order on strings: by code point, a proper prefix first. */
  predicate StringLess(a: string, b: string) {
    b != "" && (a == "" || a[0] < b[0] || (a[0] == b[0] && StringLess(a[1..], b[1..])))
  }

  function InsertField(f: Field, d: Dict): Dict {
    if d == [] || !StringLess(d[0].key, f.key) then [f] + d else [d[0]] + InsertField(f, d[1..])
  }

  function SortKeys(j: Json): Json {
    match j
    case Arr(items) => Arr(SortItems(items))
    case Obj(fields) => Obj(SortFields(fields))
    case _ => j
  }

  function SortItems(items: seq<Json>): seq<Json> {
    if items == [] then [] else [SortKeys(items[0])] + SortItems(items[1..])
  }

  function SortFields(fields: Dict): Dict {
    if fields == [] then []
    else InsertField(Field(fields[0].key, SortKeys(fields[0].value)), SortFields(fields[1..]))
  }

  // ---- the projection -----------------------------------------------

  function PayloadText(payload: Json): string {
    var s := Dumps(SortKeys(payload), true);
    if |s| > REPLAY_PAYLOAD_MAX_CHARS then s[..REPLAY_PAYLOAD_MAX_CHARS] + TRUNCATION_MARK else s
  }

  function ToolResults(payload: Json): string {
    "[Tool results: " + (PayloadText(payload) + "]")
  }

  function AssistantContent(text: string, payload: Json): string {
    if Truthy(payload)
      then if text != "" then text + ("\n\n" + ToolResults(payload)) else ToolResults(payload)
      else text
  }

  function PlainMessage(role: string, content: string): Json {
    Obj([Field("role", Str(role)), Field("content", Str(content))])
  }

  /** `_replay_message_to_input_shape`: user and assistant text survives, the rest is dropped. */
  function ProjectEntry(e: ReplayEntry): Option<Json> {
    if e.NotADict? then None
    else if e.role == "user" then
      if e.text == "" then None else Some(PlainMessage("user", e.text))
    else if e.role == "assistant" then
      var content := AssistantContent(e.text, e.payload);
      if content == "" then None else Some(PlainMessage("assistant", content))
    else None
  }

  // ---- the cost of a payload in the estimator ---------------------------

  lemma {:induction false} EscapeAllConcat(a: string, b: string, ascii: bool)
    ensures EscapeAll(a + b, ascii) == EscapeAll(a, ascii) + EscapeAll(b, ascii)
  {
    if a == "" {
      assert a + b == b;
    } else {
      assert (a + b)[1..] == a[1..] + b;
      EscapeAllConcat(a[1..], b, ascii);
    }
  }

  predicate Plain(c: char) {
    c >= ' ' && c != '\"' && c != '\\'
  }

  ghost predicate AllPlain(s: string) {
    forall i :: 0 <= i < |s| ==> Plain(s[i])
  }

  lemma {:induction false} PlainIsUnescaped(s: string)
    requires AllPlain(s)
    ensures EscapeAll(s, false) == s
  {
    if s != "" {
      PlainIsUnescaped(s[1..]);
    }
  }

  /** Escaping printable ASCII a second time at most doubles it. */
  lemma {:induction false} SecondEscapeDoubles(s: string)
    requires AllPrintable(s)
    ensures |EscapeAll(s, false)| <= 2 * |s|
  {
    if s != "" {
      SecondEscapeDoubles(s[1..]);
    }
  }

  lemma PayloadTextEscaped(payload: Json)
    ensures |EscapeAll(PayloadText(payload), false)| <= 2 * REPLAY_PAYLOAD_MAX_CHARS + |TRUNCATION_MARK|
  {
    var s := Dumps(SortKeys(payload), true);
    DumpsPrintable(SortKeys(payload));
    if |s| > REPLAY_PAYLOAD_MAX_CHARS {
      var head := s[..REPLAY_PAYLOAD_MAX_CHARS];
      SecondEscapeDoubles(head);
      PlainIsUnescaped(TRUNCATION_MARK);
      EscapeAllConcat(head, TRUNCATION_MARK, false);
    } else {
      SecondEscapeDoubles(s);
    }
  }

  lemma WrappedEscaped(open: string, middle: string, close: string)
    requires AllPlain(open) && AllPlain(close)
    ensures |EscapeAll(open + (middle + close), false)| == |open| + |EscapeAll(middle, false)| + |close|
  {
    PlainIsUnescaped(open);
    PlainIsUnescaped(close);
    EscapeAllConcat(open, middle + close, false);
    EscapeAllConcat(middle, close, false);
  }

  lemma ToolResultsEscaped(payload: Json)
    ensures |EscapeAll(ToolResults(payload), false)| == 16 + |EscapeAll(PayloadText(payload), false)|
  {
    WrappedEscaped("[Tool results: ", PayloadText(payload), "]");
  }

  /** After non-empty text the suffix starts with an escaped blank line: four characters. */
  lemma SuffixEscaped(text: string, suffix: string)
    ensures |EscapeAll(text + ("\n\n" + suffix), false)| == |EscapeAll(text, false)| + 4 + |EscapeAll(suffix, false)|
  {
    EscapeAllConcat(text, "\n\n" + suffix, false);
    EscapeAllConcat("\n\n", suffix, false);
    EscapedBreaks("\n\n");
  }

  lemma {:induction false} EscapedBreaks(s: string)
    requires forall i :: 0 <= i < |s| ==> s[i] == '\n'
    ensures |EscapeAll(s, false)| == 2 * |s|
  {
    if s != "" {
      EscapedBreaks(s[1..]);
    }
  }

  lemma TwoFieldsLength(k1: string, v1: string, k2: string, v2: string)
    requires AllPlain(k1) && AllPlain(v1) && AllPlain(k2)
    ensures |Dumps(Obj([Field(k1, Str(v1)), Field(k2, Str(v2))]), false)|
      == |k1| + |v1| + |k2| + |EscapeAll(v2, false)| + 16
  {
    var fields := [Field(k1, Str(v1)), Field(k2, Str(v2))];
    PlainIsUnescaped(k1);
    PlainIsUnescaped(v1);
    PlainIsUnescaped(k2);
    assert fields[1..] == [Field(k2, Str(v2))];
    assert FieldsText(fields[1..], false) == StringText(k2, false) + (": " + (StringText(v2, false) + "}"));
    assert FieldsText(fields, false) ==
      StringText(k1, false) + (": " + (StringText(v1, false) + (", " + FieldsText(fields[1..], false))));
  }

  /** The envelope of a replayed assistant message takes 36 characters. */
  lemma AssistantMessageLength(content: string)
    ensures |Dumps(PlainMessage("assistant", content), false)| == 36 + |EscapeAll(content, false)|
  {
    TwoFieldsLength("role", "assistant", "content", content);
  }

  function AssistantCost(text: string, payload: Json): nat {
    var m := ProjectEntry(Entry("assistant", text, payload));
    if m.Some? then EstimateTokens(m.value) else 0
  }

  /**
   The cap of 1200 characters is a cap of 608 estimated tokens on a turn that has text,
   and of 616 on a turn that is its payload only.
   */
  lemma ReplayedPayloadCost(text: string, payload: Json)
    ensures text != "" ==> AssistantCost(text, payload) <= AssistantCost(text, Null) + 608
    ensures AssistantCost("", payload) <= 616
  {
    if Truthy(payload) {
      ToolResultsEscaped(payload);
      PayloadTextEscaped(payload);
      SuffixEscaped(text, ToolResults(payload));
      AssistantMessageLength(text);
      AssistantMessageLength(text + ("\n\n" + ToolResults(payload)));
      AssistantMessageLength(ToolResults(payload));
    }
  }

  // ---- both bounds are reached ---------------------------------------------

  function Quotes(n: nat): string {
    if n == 0 then "" else "\"" + Quotes(n - 1)
  }

  /** Every character is one that escaping doubles. */
  ghost predicate AllDoubled(s: string) {
    forall i :: 0 <= i < |s| ==> s[i] == '\"' || s[i] == '\\'
  }

  lemma {:induction false} DoubledIsTwiceAsLong(s: string)
    requires AllDoubled(s)
    ensures |EscapeAll(s, false)| == 2 * |s|
  {
    if s != "" {
      DoubledIsTwiceAsLong(s[1..]);
    }
  }

  lemma {:induction false} EscapedQuotes(n: nat)
    ensures |EscapeAll(Quotes(n), true)| == 2 * n && AllDoubled(EscapeAll(Quotes(n), true))
  {
    if n > 0 {
      EscapedQuotes(n - 1);
      assert Quotes(n)[1..] == Quotes(n - 1);
      assert EscapeAll(Quotes(n), true) == ['\\', '\"'] + EscapeAll(Quotes(n - 1), true);
    }
  }

  /** The quotes print past the cap; the 1200 characters that are kept all double when escaped again. */
  lemma QuotesAreCut(n: nat)
    requires 2 * n >= REPLAY_PAYLOAD_MAX_CHARS
    ensures |EscapeAll(PayloadText(Str(Quotes(n))), false)| == 2 * REPLAY_PAYLOAD_MAX_CHARS + |TRUNCATION_MARK|
  {
    var quotes := EscapeAll(Quotes(n), true);
    EscapedQuotes(n);
    var text := Dumps(SortKeys(Str(Quotes(n))), true);
    assert text == ['\"'] + (quotes + ['\"']);
    var head := text[..REPLAY_PAYLOAD_MAX_CHARS];
    assert AllDoubled(head);
    DoubledIsTwiceAsLong(head);
    PlainIsUnescaped(TRUNCATION_MARK);
    EscapeAllConcat(head, TRUNCATION_MARK, false);
  }

  /** A payload of 600 quotes or more costs exactly the two bounds, after any text and alone. */
  lemma PayloadCostIsReached(text: string, n: nat)
    requires text != "" && 2 * n >= REPLAY_PAYLOAD_MAX_CHARS
    ensures AssistantCost(text, Str(Quotes(n))) == AssistantCost(text, Null) + 608
    ensures AssistantCost("", Str(Quotes(n))) == 616
  {
    var payload := Str(Quotes(n));
    assert Truthy(payload);
    QuotesAreCut(n);
    ToolResultsEscaped(payload);
    SuffixEscaped(text, ToolResults(payload));
    AssistantMessageLength(text);
    AssistantMessageLength(text + ("\n\n" + ToolResults(payload)));
    AssistantMessageLength(ToolResults(payload));
  }

  // ---- a payload within the cap reads back as the same dict ----------------------

  ghost predicate Distinct(d: Dict) {
    d == [] || (Lookup(d[1..], d[0].key).None? && Distinct(d[1..]))
  }

  lemma {:induction false} DistinctIsUnique(d: Dict)
    ensures Distinct(d) <==> UniqueKeys(d)
  {
    if d != [] {
      DistinctIsUnique(d[1..]);
      LookupFinds(d[1..], d[0].key);
      assert d == [d[0]] + d[1..];
    }
  }

  lemma {:induction false} InsertLookup(f: Field, d: Dict, key: string)
    requires Lookup(d, f.key).None?
    ensures Lookup(InsertField(f, d), key) == if key == f.key then Some(f.value) else Lookup(d, key)
  {
    if d != [] && StringLess(d[0].key, f.key) {
      InsertLookup(f, d[1..], key);
    } else {
      assert ([f] + d)[1..] == d;
    }
  }

  lemma {:induction false} InsertDistinct(f: Field, d: Dict)
    requires Distinct(d) && Lookup(d, f.key).None?
    ensures Distinct(InsertField(f, d))
  {
    if d != [] && StringLess(d[0].key, f.key) {
      InsertDistinct(f, d[1..]);
      InsertLookup(f, d[1..], d[0].key);
      assert InsertField(f, d)[1..] == InsertField(f, d[1..]);
    } else {
      assert ([f] + d)[1..] == d;
    }
  }

  lemma {:induction false} SortedLookup(d: Dict, key: string)
    requires Distinct(d)
    ensures Distinct(SortFields(d))
    ensures Lookup(SortFields(d), key) ==
      if Lookup(d, key).Some? then Some(SortKeys(Lookup(d, key).value)) else None
  {
    if d != [] {
      var f := Field(d[0].key, SortKeys(d[0].value));
      SortedLookup(d[1..], key);
      SortedLookup(d[1..], f.key);
      InsertLookup(f, SortFields(d[1..]), key);
      InsertDistinct(f, SortFields(d[1..]));
    }
  }

  ghost predicate Ascending(d: Dict) {
    forall i :: 0 < i < |d| ==> !StringLess(d[i].key, d[i - 1].key)
  }

  lemma {:induction false} LessIsAsymmetric(a: string, b: string)
    requires StringLess(a, b)
    ensures !StringLess(b, a)
  {
    if a != "" && a[0] == b[0] {
      LessIsAsymmetric(a[1..], b[1..]);
    }
  }

  lemma {:induction false} InsertAscending(f: Field, d: Dict)
    requires Ascending(d)
    ensures Ascending(InsertField(f, d))
  {
    if d != [] && StringLess(d[0].key, f.key) {
      InsertAscending(f, d[1..]);
      LessIsAsymmetric(d[0].key, f.key);
    }
  }

  lemma {:induction false} SortedAscending(d: Dict)
    ensures Ascending(SortFields(d))
  {
    if d != [] {
      SortedAscending(d[1..]);
      InsertAscending(Field(d[0].key, SortKeys(d[0].value)), SortFields(d[1..]));
    }
  }

  lemma {:induction false} InsertWf(f: Field, d: Dict)
    requires Wf(f.value) && forall i :: 0 <= i < |d| ==> Wf(d[i].value)
    ensures forall i :: 0 <= i < |InsertField(f, d)| ==> Wf(InsertField(f, d)[i].value)
  {
    if d != [] && StringLess(d[0].key, f.key) {
      InsertWf(f, d[1..]);
    }
  }

  lemma {:induction false} SortKeysWf(j: Json)
    requires Wf(j)
    ensures Wf(SortKeys(j))
    decreases j, 0
  {
    match j
    case Arr(items) => SortItemsWf(items);
    case Obj(fields) =>
      SortFieldsWf(fields);
      DistinctIsUnique(fields);
      SortedLookup(fields, "");
      DistinctIsUnique(SortFields(fields));
    case _ =>
  }

  lemma {:induction false} SortItemsWf(items: seq<Json>)
    requires forall i :: 0 <= i < |items| ==> Wf(items[i])
    ensures forall i :: 0 <= i < |SortItems(items)| ==> Wf(SortItems(items)[i])
    decreases items, 0
  {
    if items != [] {
      SortKeysWf(items[0]);
      SortItemsWf(items[1..]);
    }
  }

  lemma {:induction false} SortFieldsWf(fields: Dict)
    requires forall i :: 0 <= i < |fields| ==> Wf(fields[i].value)
    ensures forall i :: 0 <= i < |SortFields(fields)| ==> Wf(SortFields(fields)[i].value)
    decreases fields, 0
  {
    if fields != [] {
      SortKeysWf(fields[0].value);
      SortFieldsWf(fields[1..]);
      InsertWf(Field(fields[0].key, SortKeys(fields[0].value)), SortFields(fields[1..]));
    }
  }

  /** The strings first differ at `n`, where `a` ends or has the smaller character. */
  predicate DiffersAt(a: string, b: string, n: nat) {
    n < |b| && n <= |a| && a[..n] == b[..n] && (n == |a| || a[n] < b[n])
  }

  lemma {:induction false} LessDiffers(a: string, b: string) returns (n: nat)
    requires StringLess(a, b)
    ensures DiffersAt(a, b, n)
  {
    n := 0;
    if a != "" && a[0] == b[0] {
      n := LessDiffers(a[1..], b[1..]);
      assert a[..n + 1] == [a[0]] + a[1..][..n] && b[..n + 1] == [b[0]] + b[1..][..n];
      n := n + 1;
    }
  }

  lemma {:induction false} DifferenceIsLess(a: string, b: string, n: nat)
    requires DiffersAt(a, b, n)
    ensures StringLess(a, b)
  {
    if n > 0 {
      assert a[..n][0] == b[..n][0];
      assert a[1..][..n - 1] == a[..n][1..] && b[1..][..n - 1] == b[..n][1..];
      DifferenceIsLess(a[1..], b[1..], n - 1);
    }
  }

  /** Strings are in the order of their first difference, a proper prefix first. */
  lemma LessIsLexicographic(a: string, b: string)
    ensures StringLess(a, b) <==> exists n: nat :: DiffersAt(a, b, n)
  {
    if StringLess(a, b) {
      var n := LessDiffers(a, b);
    } else {
      forall n: nat ensures !DiffersAt(a, b, n) {
        if DiffersAt(a, b, n) {
          DifferenceIsLess(a, b, n);
        }
      }
    }
  }

  /** Every dict inside has its keys in ascending order. */
  ghost predicate Ordered(j: Json) {
    match j
    case Arr(items) => forall i :: 0 <= i < |items| ==> Ordered(items[i])
    case Obj(fields) => Ascending(fields) && forall i :: 0 <= i < |fields| ==> Ordered(fields[i].value)
    case _ => true
  }

  /** Equal up to the order of keys. */
  ghost predicate SameData(a: Json, b: Json) {
    match a
    case Arr(items) =>
      b.Arr? && |b.items| == |items| && forall i :: 0 <= i < |items| ==> SameData(items[i], b.items[i])
    case Obj(fields) =>
      && b.Obj? && |b.fields| == |fields|
      && forall i :: 0 <= i < |fields| ==>
           var v := Lookup(b.fields, fields[i].key); v.Some? && SameData(fields[i].value, v.value)
    case _ => a == b
  }

  lemma {:induction false} InsertOrdered(f: Field, d: Dict)
    requires Ordered(f.value) && forall i :: 0 <= i < |d| ==> Ordered(d[i].value)
    ensures forall i :: 0 <= i < |InsertField(f, d)| ==> Ordered(InsertField(f, d)[i].value)
    ensures |InsertField(f, d)| == |d| + 1
  {
    if d != [] && StringLess(d[0].key, f.key) {
      InsertOrdered(f, d[1..]);
    }
  }

  /** `sort_keys` sorts the keys of every dict inside and changes nothing else. */
  lemma {:induction false} SortKeysSorts(j: Json)
    requires Wf(j)
    ensures Ordered(SortKeys(j)) && SameData(j, SortKeys(j))
    decreases j, 0
  {
    match j
    case Arr(items) => SortItemsSorts(items);
    case Obj(fields) =>
      SortFieldsSorts(fields);
      SortedAscending(fields);
      DistinctIsUnique(fields);
      forall i | 0 <= i < |fields|
        ensures var v := Lookup(SortFields(fields), fields[i].key); v.Some? && SameData(fields[i].value, v.value)
      {
        SortedLookup(fields, fields[i].key);
        LookupOfUnique(fields, i);
        SortKeysSorts(fields[i].value);
      }
    case _ =>
  }

  lemma {:induction false} LookupOfUnique(d: Dict, i: nat)
    requires UniqueKeys(d) && i < |d|
    ensures Lookup(d, d[i].key) == Some(d[i].value)
  {
    if i > 0 {
      LookupOfUnique(d[1..], i - 1);
    }
  }

  lemma {:induction false} SortItemsSorts(items: seq<Json>)
    requires forall i :: 0 <= i < |items| ==> Wf(items[i])
    ensures |SortItems(items)| == |items|
    ensures forall i :: 0 <= i < |items| ==> Ordered(SortItems(items)[i]) && SameData(items[i], SortItems(items)[i])
    decreases items, 0
  {
    if items != [] {
      SortKeysSorts(items[0]);
      SortItemsSorts(items[1..]);
    }
  }

  lemma {:induction false} SortFieldsSorts(fields: Dict)
    requires forall i :: 0 <= i < |fields| ==> Wf(fields[i].value)
    ensures |SortFields(fields)| == |fields|
    ensures forall i :: 0 <= i < |fields| ==> Ordered(SortFields(fields)[i].value)
    decreases fields, 0
  {
    if fields != [] {
      SortKeysSorts(fields[0].value);
      SortFieldsSorts(fields[1..]);
      InsertOrdered(Field(fields[0].key, SortKeys(fields[0].value)), SortFields(fields[1..]));
    }
  }

  /**
   A payload dict that prints within the cap can be read back out of the replayed text:
   same keys in ascending order, same values up to the order of their own keys.
   */
  lemma PayloadReadsBack(payload: Json, key: string)
    requires Wf(payload) && payload.Obj?
    requires |Dumps(SortKeys(payload), true)| <= REPLAY_PAYLOAD_MAX_CHARS
    ensures var read := Loads(PayloadText(payload));
      && read.Some? && read.value.Obj? && Ascending(read.value.fields)
      && Get(read.value, key) == if Get(payload, key).Some? then Some(SortKeys(Get(payload, key).value)) else None
  {
    SortKeysWf(payload);
    RoundTrip(SortKeys(payload), true);
    SortedAscending(payload.fields);
    DistinctIsUnique(payload.fields);
    SortedLookup(payload.fields, key);
  }
}
