/**
 Side-car metadata on stored rows: `_meta_data_with_tool_metadata` attaches it,
 `_strip_persistence_keys` takes it off again (`llm_core_lib/chat/chat_session.py`).
 */
module Metadata {
  import opened Results
  import opened JsonValues

  const META_KEY_REFS: string := "refs"
  const META_KEY_LLM_PAYLOAD: string := "llm_payload"

  function PersistenceOnlyKeys(): set<string> {
    {META_KEY_REFS, META_KEY_LLM_PAYLOAD}
  }

  // ---- stripping ---------------------------------------------------------

  function StripPersistenceKeys(stored: Json): Json {
    if stored.Obj? then Obj(Without(stored.fields, PersistenceOnlyKeys())) else stored
  }

  /** A message that carries neither side-car key. */
  predicate Clean(message: Json) {
    Get(message, META_KEY_REFS).None? && Get(message, META_KEY_LLM_PAYLOAD).None?
  }

  // ---- de-duplicating references -----------------------------------------------

  /** Python's `1 == True` makes both the same set member. */
  function HashKey(j: Json): Json {
    match j
    case Bool(b) => Num(if b then 1 else 0)
    case _ => j
  }

  function RefKey(ref: Json): (Json, Json) {
    (HashKey(GetOrNull(ref, "type")), HashKey(GetOrNull(ref, "id")))
  }

  predicate Hashable(key: (Json, Json)) {
    !key.0.Arr? && !key.0.Obj? && !key.1.Arr? && !key.1.Obj?
  }

  /** `ref.get(...)` works and the pair of values can be a set member. */
  predicate Readable(ref: Json) {
    ref.Obj? && Hashable(RefKey(ref))
  }

  function RefRecord(ref: Json): Json {
    Obj([Field("type", GetOrNull(ref, "type")), Field("id", GetOrNull(ref, "id"))])
  }

  predicate Complete(ref: Json) {
    Get(ref, "type").Some? && Get(ref, "id").Some?
  }

  /** The de-duplication loop; a ref that cannot be read, or is new and incomplete, raises. */
  function Deduped(refs: seq<Json>, seen: set<(Json, Json)>): Outcome<seq<Json>> {
    if refs == [] then Ok([])
    else if !Readable(refs[0]) then Raised
    else if RefKey(refs[0]) in seen then Deduped(refs[1..], seen)
    else if !Complete(refs[0]) then Raised
    else
      var rest :- Deduped(refs[1..], seen + {RefKey(refs[0])});
      Ok([RefRecord(refs[0])] + rest)
  }

  method DedupeRefs(turnRefs: seq<Json>) returns (deduped: Outcome<seq<Json>>)
    ensures deduped == Deduped(turnRefs, {})
  {
    var seen: set<(Json, Json)> := {};
    var kept: seq<Json> := [];
    var i := 0;
    ghost var all := Deduped(turnRefs, {});
    assert turnRefs[0..] == turnRefs && (all.Ok? ==> [] + all.value == all.value);
    while i < |turnRefs|
      invariant 0 <= i <= |turnRefs|
      invariant var rest := Deduped(turnRefs[i..], seen);
        Deduped(turnRefs, {}) == if rest.Ok? then Ok(kept + rest.value) else Raised
    {
      var ref := turnRefs[i];
      assert turnRefs[i..][1..] == turnRefs[i + 1..];
      i := i + 1;
      if !Readable(ref) {
        return Raised;
      }
      if RefKey(ref) in seen {
        continue;
      }
      if !Complete(ref) {
        return Raised;
      }
      seen := seen + {RefKey(ref)};
      ghost var rest := Deduped(turnRefs[i..], seen);
      assert rest.Ok? ==> kept + ([RefRecord(ref)] + rest.value) == (kept + [RefRecord(ref)]) + rest.value;
      kept := kept + [RefRecord(ref)];
    }
    assert kept + [] == kept;
    return Ok(kept);
  }

  /** Position `i` holds the first reference with its key. */
  ghost predicate FirstOccurrence(refs: seq<Json>, i: nat)
    requires i < |refs|
  {
    forall j :: 0 <= j < i ==> RefKey(refs[j]) != RefKey(refs[i])
  }

  lemma RefRecordKey(ref: Json)
    ensures RefKey(RefRecord(ref)) == RefKey(ref)
  {
    var fields := RefRecord(ref).fields;
    assert |"type"| != |"id"|;
    LookupPair(fields[0], fields[1], "id");
  }

  /** The positions a run of the loop keeps, given the keys seen before it. */
  function Positions(refs: seq<Json>, seen: set<(Json, Json)>): seq<nat> {
    if refs == [] then []
    else if RefKey(refs[0]) in seen then Shifted(Positions(refs[1..], seen))
    else [0] + Shifted(Positions(refs[1..], seen + {RefKey(refs[0])}))
  }

  function Shifted(s: seq<nat>): (r: seq<nat>)
    ensures |r| == |s| && forall i :: 0 <= i < |r| ==> r[i] == s[i] + 1
  {
    if s == [] then [] else [s[0] + 1] + Shifted(s[1..])
  }

  ghost predicate Increasing(p: seq<nat>, low: nat, high: nat) {
    && (forall i :: 0 <= i < |p| ==> low <= p[i] < high)
    && (forall i, j :: 0 <= i < j < |p| ==> p[i] < p[j])
  }

  /** `positions` picks, in order, exactly the first occurrence of every key outside `seen`. */
  ghost predicate PicksFirsts(refs: seq<Json>, seen: set<(Json, Json)>, positions: seq<nat>) {
    && Increasing(positions, 0, |refs|)
    && (forall k :: 0 <= k < |refs| ==>
         (k in positions <==> FirstOccurrence(refs, k) && RefKey(refs[k]) !in seen))
  }

  lemma ShiftedIncreasing(p: seq<nat>, high: nat)
    requires Increasing(p, 0, high)
    ensures Increasing(Shifted(p), 1, high + 1)
  {
  }

  lemma ZeroFirst(p: seq<nat>, high: nat)
    requires high > 0 && Increasing(p, 1, high)
    ensures Increasing([0] + p, 0, high)
  {
  }

  lemma {:induction false} PositionsOrdered(refs: seq<Json>, seen: set<(Json, Json)>)
    ensures Increasing(Positions(refs, seen), 0, |refs|)
  {
    if refs != [] {
      var known := if RefKey(refs[0]) in seen then seen else seen + {RefKey(refs[0])};
      PositionsOrdered(refs[1..], known);
      ShiftedIncreasing(Positions(refs[1..], known), |refs| - 1);
      ZeroFirst(Shifted(Positions(refs[1..], known)), |refs|);
    }
  }

  lemma {:induction false} PositionsMember(refs: seq<Json>, seen: set<(Json, Json)>, k: nat)
    requires k < |refs|
    ensures k in Positions(refs, seen) <==> FirstOccurrence(refs, k) && RefKey(refs[k]) !in seen
  {
    var known := if RefKey(refs[0]) in seen then seen else seen + {RefKey(refs[0])};
    var rest := Positions(refs[1..], known);
    if k == 0 {
      assert 0 !in Shifted(rest);
    } else {
      PositionsMember(refs[1..], known, k - 1);
      InShifted(rest, k);
      FirstOccurrenceStep(refs, k);
    }
  }

  lemma PositionsPick(refs: seq<Json>, seen: set<(Json, Json)>)
    ensures PicksFirsts(refs, seen, Positions(refs, seen))
  {
    PositionsOrdered(refs, seen);
    forall k | 0 <= k < |refs|
      ensures k in Positions(refs, seen) <==> FirstOccurrence(refs, k) && RefKey(refs[k]) !in seen
    {
      PositionsMember(refs, seen, k);
    }
  }

  lemma InShifted(s: seq<nat>, k: nat)
    requires k > 0
    ensures k in Shifted(s) <==> k - 1 in s
  {
    if k - 1 in s {
      var i :| 0 <= i < |s| && s[i] == k - 1;
      assert Shifted(s)[i] == k;
    }
  }

  lemma {:induction false} DedupedAtPositions(refs: seq<Json>, seen: set<(Json, Json)>)
    requires Deduped(refs, seen).Ok?
    ensures var (d, p) := (Deduped(refs, seen).value, Positions(refs, seen));
      |d| == |p| && forall i :: 0 <= i < |d| ==> p[i] < |refs| && d[i] == RefRecord(refs[p[i]])
  {
    if refs != [] {
      if RefKey(refs[0]) in seen {
        DedupedAtPositions(refs[1..], seen);
      } else {
        DedupedAtPositions(refs[1..], seen + {RefKey(refs[0])});
      }
    }
  }

  // ---- the same, read off the references themselves -------------------------------

  /** Python's `==` on scalars: `1 == True` and `0 == False`. */
  predicate SameValue(x: Json, y: Json) {
    || x == y
    || (x.Num? && y.Bool? && x.n == if y.b then 1 else 0)
    || (y.Num? && x.Bool? && y.n == if x.b then 1 else 0)
  }

  /** Two references to the same thing: equal `type`, equal `id`. */
  predicate SameRef(a: Json, b: Json) {
    SameValue(GetOrNull(a, "type"), GetOrNull(b, "type")) && SameValue(GetOrNull(a, "id"), GetOrNull(b, "id"))
  }

  lemma SameRefSameKey(a: Json, b: Json)
    ensures SameRef(a, b) <==> RefKey(a) == RefKey(b)
  {
  }

  /** No earlier reference is to the same thing. */
  ghost predicate New(refs: seq<Json>, k: nat)
    requires k < |refs|
  {
    forall j :: 0 <= j < k ==> !SameRef(refs[j], refs[k])
  }

  lemma NewIsFirst(refs: seq<Json>, k: nat)
    requires k < |refs|
    ensures New(refs, k) <==> FirstOccurrence(refs, k)
  {
    forall j | 0 <= j < k ensures SameRef(refs[j], refs[k]) <==> RefKey(refs[j]) == RefKey(refs[k]) {
      SameRefSameKey(refs[j], refs[k]);
    }
  }

  /** A scalar can be a member of a set. */
  predicate Scalar(j: Json) {
    !j.Arr? && !j.Obj?
  }

  /** Every reference is a dict with scalar `type` and `id`, and every new one has both keys. */
  ghost predicate Writable(refs: seq<Json>) {
    forall k :: 0 <= k < |refs| ==>
      && refs[k].Obj? && Scalar(GetOrNull(refs[k], "type")) && Scalar(GetOrNull(refs[k], "id"))
      && (New(refs, k) ==> Get(refs[k], "type").Some? && Get(refs[k], "id").Some?)
  }

  /** The de-duplication goes through exactly on writable references. */
  lemma DedupeGoesThrough(refs: seq<Json>)
    ensures Deduped(refs, {}).Ok? <==> Writable(refs)
  {
    DedupeSucceeds(refs, {});
    forall k | 0 <= k < |refs| ensures New(refs, k) <==> FirstOccurrence(refs, k) {
      NewIsFirst(refs, k);
    }
  }

  lemma RefRecordReads(ref: Json)
    requires Complete(ref)
    ensures KeysOf(RefRecord(ref).fields) == {"type", "id"}
    ensures Get(RefRecord(ref), "type") == Get(ref, "type") && Get(RefRecord(ref), "id") == Get(ref, "id")
  {
    var fields := RefRecord(ref).fields;
    assert |"type"| != |"id"| && fields == [fields[0], fields[1]];
    LookupPair(fields[0], fields[1], "type");
    LookupPair(fields[0], fields[1], "id");
  }

  /**
   The stored references are, in call order, the first reference to every thing: nothing twice,
   nothing moved. Each keeps `type` and `id` as captured and nothing else.
   */
  lemma DedupeKeepsFirstOccurrences(refs: seq<Json>)
    requires Deduped(refs, {}).Ok?
    ensures var (d, p) := (Deduped(refs, {}).value, Positions(refs, {}));
      && Increasing(p, 0, |refs|) && |d| == |p|
      && (forall k :: 0 <= k < |refs| ==> (k in p <==> New(refs, k)))
      && (forall i :: 0 <= i < |d| ==>
           && d[i].Obj? && KeysOf(d[i].fields) == {"type", "id"}
           && Get(d[i], "type") == Get(refs[p[i]], "type") && Get(d[i], "id") == Get(refs[p[i]], "id"))
      && forall i, j :: 0 <= i < j < |d| ==> !SameRef(d[i], d[j])
  {
    var (d, p) := (Deduped(refs, {}).value, Positions(refs, {}));
    PositionsPick(refs, {});
    DedupedAtPositions(refs, {});
    DedupeSucceeds(refs, {});
    forall k | 0 <= k < |refs| ensures k in p <==> New(refs, k) {
      NewIsFirst(refs, k);
    }
    forall i | 0 <= i < |d| ensures p[i] in p && Complete(refs[p[i]]) && RefKey(d[i]) == RefKey(refs[p[i]]) {
      RefRecordKey(refs[p[i]]);
      assert p[i] in p;
      assert FirstOccurrence(refs, p[i]);
    }
    forall i | 0 <= i < |d|
      ensures KeysOf(d[i].fields) == {"type", "id"}
      ensures Get(d[i], "type") == Get(refs[p[i]], "type") && Get(d[i], "id") == Get(refs[p[i]], "id")
    {
      RefRecordReads(refs[p[i]]);
    }
    forall i, j | 0 <= i < j < |d| ensures !SameRef(d[i], d[j]) {
      assert FirstOccurrence(refs, p[j]);
      SameRefSameKey(d[i], d[j]);
    }
  }

  /** Every reference of one list is to the same thing as one of the other, and the other way round. */
  ghost predicate HoldsTheSame(refs: seq<Json>, stored: seq<Json>) {
    && (forall k :: 0 <= k < |refs| ==> exists i :: 0 <= i < |stored| && SameRef(refs[k], stored[i]))
    && (forall i :: 0 <= i < |stored| ==> exists k :: 0 <= k < |refs| && SameRef(refs[k], stored[i]))
  }

  lemma StoredFor(refs: seq<Json>, k: nat) returns (i: nat)
    requires Deduped(refs, {}).Ok? && k < |refs|
    ensures i < |Deduped(refs, {}).value| && SameRef(refs[k], Deduped(refs, {}).value[i])
  {
    var (d, p) := (Deduped(refs, {}).value, Positions(refs, {}));
    var f := FirstWithKey(refs, k);
    PositionsPick(refs, {});
    DedupedAtPositions(refs, {});
    assert f in p;
    i :| 0 <= i < |p| && p[i] == f;
    RefRecordKey(refs[f]);
    SameRefSameKey(refs[k], d[i]);
  }

  /** Nothing goes missing, and nothing comes in: captured and stored references are to the same things. */
  lemma DedupeKeepsKeys(refs: seq<Json>)
    requires Deduped(refs, {}).Ok?
    ensures HoldsTheSame(refs, Deduped(refs, {}).value)
  {
    var (d, p) := (Deduped(refs, {}).value, Positions(refs, {}));
    forall k | 0 <= k < |refs| ensures exists i :: 0 <= i < |d| && SameRef(refs[k], d[i]) {
      var i := StoredFor(refs, k);
    }
    DedupedAtPositions(refs, {});
    forall i | 0 <= i < |d| ensures exists k :: 0 <= k < |refs| && SameRef(refs[k], d[i]) {
      RefRecordKey(refs[p[i]]);
      SameRefSameKey(refs[p[i]], d[i]);
    }
  }

  ghost predicate Attachable(refs: seq<Json>, seen: set<(Json, Json)>) {
    && (forall k :: 0 <= k < |refs| ==> Readable(refs[k]))
    && (forall k :: 0 <= k < |refs| && FirstOccurrence(refs, k) && RefKey(refs[k]) !in seen ==> Complete(refs[k]))
  }

  lemma AttachableStep(refs: seq<Json>, seen: set<(Json, Json)>)
    requires refs != []
    ensures Attachable(refs, seen) <==>
      && Readable(refs[0])
      && (RefKey(refs[0]) !in seen ==> Complete(refs[0]))
      && Attachable(refs[1..], seen + {RefKey(refs[0])})
  {
    var (rest, known) := (refs[1..], seen + {RefKey(refs[0])});
    assert forall k :: 0 < k < |refs| ==> refs[k] == rest[k - 1];
    assert FirstOccurrence(refs, 0);
    forall k | 0 < k < |refs| {
      FirstOccurrenceStep(refs, k);
    }
    if Attachable(refs, seen) {
      forall k | 0 <= k < |rest| && FirstOccurrence(rest, k) && RefKey(rest[k]) !in known ensures Complete(rest[k]) {
        assert FirstOccurrence(refs, k + 1);
      }
      forall k | 0 <= k < |rest| ensures Readable(rest[k]) {
        assert Readable(refs[k + 1]);
      }
    }
  }

  lemma FirstOccurrenceStep(refs: seq<Json>, k: nat)
    requires 0 < k < |refs|
    ensures FirstOccurrence(refs, k) <==> FirstOccurrence(refs[1..], k - 1) && RefKey(refs[k]) != RefKey(refs[0])
  {
    assert forall j :: 0 < j < k ==> refs[j] == refs[1..][j - 1];
  }

  /** The loop goes through exactly when every reference can be read and every new one is complete. */
  lemma {:induction false} DedupeSucceeds(refs: seq<Json>, seen: set<(Json, Json)>)
    ensures Deduped(refs, seen).Ok? <==> Attachable(refs, seen)
  {
    if refs != [] {
      AttachableStep(refs, seen);
      var known := seen + {RefKey(refs[0])};
      DedupeSucceeds(refs[1..], known);
      assert RefKey(refs[0]) in seen ==> known == seen;
    }
  }

  lemma FirstWithKey(refs: seq<Json>, k: nat) returns (f: nat)
    requires k < |refs|
    ensures f <= k && RefKey(refs[f]) == RefKey(refs[k]) && FirstOccurrence(refs, f)
  {
    f := k;
    if !FirstOccurrence(refs, k) {
      var j :| 0 <= j < k && RefKey(refs[j]) == RefKey(refs[k]);
      f := FirstWithKey(refs, j);
    }
  }

  // ---- attaching --------------------------------------------------------------

  function Attached(fields: Dict, refs: seq<Json>, payload: Dict): Dict {
    var withRefs := if refs != [] then SetKey(fields, META_KEY_REFS, Arr(refs)) else fields;
    if payload != [] then SetKey(withRefs, META_KEY_LLM_PAYLOAD, Obj(payload)) else withRefs
  }

  /** `_meta_data_with_tool_metadata`. */
  function WithToolMetadata(message: Json, turnRefs: seq<Json>, turnPayload: Dict): Outcome<Json> {
    if turnRefs == [] && turnPayload == [] then Ok(message)
    else if !message.Obj? then Raised
    else
      var refs :- Deduped(turnRefs, {});
      Ok(Obj(Attached(message.fields, refs, turnPayload)))
  }

  method MetaDataWithToolMetadata(message: Json, turnRefs: seq<Json>, turnPayload: Dict)
    returns (metaData: Outcome<Json>)
    ensures metaData == WithToolMetadata(message, turnRefs, turnPayload)
  {
    if turnRefs == [] && turnPayload == [] {
      return Ok(message);
    }
    if !message.Obj? {
      return Raised;
    }
    var merged := message.fields;
    var deduped := DedupeRefs(turnRefs);
    if deduped.Raised? {
      return Raised;
    }
    if turnRefs != [] {
      DedupedNonEmpty(turnRefs);
      merged := SetKey(merged, META_KEY_REFS, Arr(deduped.value));
    }
    if turnPayload != [] {
      merged := SetKey(merged, META_KEY_LLM_PAYLOAD, Obj(turnPayload));
    }
    return Ok(Obj(merged));
  }

  lemma DedupedNonEmpty(refs: seq<Json>)
    ensures refs != [] && Deduped(refs, {}).Ok? ==> Deduped(refs, {}).value != []
    ensures refs == [] ==> Deduped(refs, {}) == Ok([])
  {
  }

  /**
   What a stored row says about its turn: the de-duplicated references and the merged payload;
   where the turn captured none, what the message itself says.
   */
  lemma AttachedReads(message: Json, turnRefs: seq<Json>, turnPayload: Dict)
    requires WithToolMetadata(message, turnRefs, turnPayload).Ok?
    ensures var row := WithToolMetadata(message, turnRefs, turnPayload).value;
      && Deduped(turnRefs, {}).Ok?
      && Get(row, "refs") == (
           if turnRefs == [] then Get(message, "refs") else Some(Arr(Deduped(turnRefs, {}).value)))
      && Get(row, "llm_payload") == (
           if turnPayload == [] then Get(message, "llm_payload") else Some(Obj(turnPayload)))
  {
    DedupedNonEmpty(turnRefs);
    if message.Obj? && (turnRefs != [] || turnPayload != []) {
      var refs := Deduped(turnRefs, {}).value;
      var withRefs := if refs != [] then SetKey(message.fields, META_KEY_REFS, Arr(refs)) else message.fields;
      assert |META_KEY_REFS| != |META_KEY_LLM_PAYLOAD|;
      LookupSet(message.fields, META_KEY_REFS, Arr(refs), META_KEY_REFS);
      LookupSet(message.fields, META_KEY_REFS, Arr(refs), META_KEY_LLM_PAYLOAD);
      LookupSet(withRefs, META_KEY_LLM_PAYLOAD, Obj(turnPayload), META_KEY_REFS);
      LookupSet(withRefs, META_KEY_LLM_PAYLOAD, Obj(turnPayload), META_KEY_LLM_PAYLOAD);
    }
  }

  // ---- stripping undoes attaching ---------------------------------------------

  lemma {:induction false} WithoutSet(d: Dict, key: string, value: Json, keys: set<string>)
    requires key in keys
    ensures Without(SetKey(d, key, value), keys) == Without(d, keys)
  {
    if d == [] {
      assert [Field(key, value)][1..] == [];
    } else if d[0].key == key {
      assert ([Field(key, value)] + d[1..])[1..] == d[1..];
    } else {
      WithoutSet(d[1..], key, value, keys);
      assert ([d[0]] + SetKey(d[1..], key, value))[1..] == SetKey(d[1..], key, value);
    }
  }

  /** Stripping cannot tell a row with side-cars from the bare message. */
  lemma StripIgnoresSidecars(message: Json, turnRefs: seq<Json>, turnPayload: Dict)
    requires WithToolMetadata(message, turnRefs, turnPayload).Ok?
    ensures StripPersistenceKeys(WithToolMetadata(message, turnRefs, turnPayload).value)
      == StripPersistenceKeys(message)
  {
    if message.Obj? && (turnRefs != [] || turnPayload != []) {
      var refs := Deduped(turnRefs, {}).value;
      var withRefs := if refs != [] then SetKey(message.fields, META_KEY_REFS, Arr(refs)) else message.fields;
      WithoutSet(message.fields, META_KEY_REFS, Arr(refs), PersistenceOnlyKeys());
      WithoutSet(withRefs, META_KEY_LLM_PAYLOAD, Obj(turnPayload), PersistenceOnlyKeys());
    }
  }

  /** Attaching then stripping gives the message back exactly when it had neither key. */
  lemma AttachThenStrip(message: Json, turnRefs: seq<Json>, turnPayload: Dict)
    requires WithToolMetadata(message, turnRefs, turnPayload).Ok?
    ensures StripPersistenceKeys(WithToolMetadata(message, turnRefs, turnPayload).value) == message
      <==> Clean(message)
  {
    StripIgnoresSidecars(message, turnRefs, turnPayload);
    if message.Obj? {
      WithoutIdentity(message.fields, PersistenceOnlyKeys());
      LookupFinds(message.fields, META_KEY_REFS);
      LookupFinds(message.fields, META_KEY_LLM_PAYLOAD);
    }
  }

  lemma {:induction false} LookupWithout(d: Dict, keys: set<string>, q: string)
    ensures Lookup(Without(d, keys), q) == if q in keys then None else Lookup(d, q)
  {
    if d != [] {
      LookupWithout(d[1..], keys, q);
      if d[0].key !in keys {
        assert ([d[0]] + Without(d[1..], keys))[1..] == Without(d[1..], keys);
      }
    }
  }

  /** Side-cars hide nothing: every other key reads the same with and without them. */
  lemma StripKeepsOtherKeys(message: Json, key: string)
    requires key !in PersistenceOnlyKeys()
    ensures Get(StripPersistenceKeys(message), key) == Get(message, key)
  {
    if message.Obj? {
      LookupWithout(message.fields, PersistenceOnlyKeys(), key);
    }
  }
}
