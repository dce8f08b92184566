/**
 What the metadata extractor answered, read as `capturing_invoke_tool` reads it. An answer can
 be any value, and so can its `refs` and its `llm_payload_fragment`.
 */
module Fragments {
  import opened Results
  import opened JsonValues
  import opened JsonText

  datatype HookReply = HookRaises | Answer(value: Json)

  const REFS: string := "refs"
  const LLM_PAYLOAD_FRAGMENT: string := "llm_payload_fragment"

  /** What iterating over a value yields: members, characters or keys; a scalar cannot be iterated. */
  function Iterated(j: Json): Option<seq<Json>> {
    match j
    case Arr(items) => Some(items)
    case Str(s) => Some(seq(|s|, i requires 0 <= i < |s| => Str([s[i]])))
    case Obj(fields) => Some(seq(|fields|, i requires 0 <= i < |fields| => Str(fields[i].key)))
    case _ => None
  }

  /** The dict key a value makes, a scalar as `json` writes it; a list or a dict makes none. */
  function KeyFrom(j: Json): Option<string> {
    match j
    case Str(s) => Some(s)
    case Arr(_) => None
    case Obj(_) => None
    case _ => Some(Dumps(j, true))
  }

  /** One element of a list handed to `dict.update`: two parts, the first of which is a key. */
  function PairFrom(j: Json): Option<Field> {
    var parts :- Iterated(j);
    if |parts| != 2 then None else
    var key :- KeyFrom(parts[0]);
    Some(Field(key, parts[1]))
  }

  /** The pairs before the first element that is none. */
  function LeadingPairs(items: seq<Json>): Dict {
    if items == [] || PairFrom(items[0]).None? then []
    else [PairFrom(items[0]).value] + LeadingPairs(items[1..])
  }

  /** `extend(refs)` goes through, or is not reached. */
  predicate Extendable(refs: Json) {
    !Truthy(refs) || Iterated(refs).Some?
  }

  /** `update(payload)` goes through, or is not reached. */
  predicate Updatable(payload: Json) {
    || !Truthy(payload) || payload.Obj?
    || (Iterated(payload).Some?
        && forall i :: 0 <= i < |Iterated(payload).value| ==> PairFrom(Iterated(payload).value[i]).Some?)
  }

  /** What `update(payload)` writes, up to the element at which it raises. */
  function Written(payload: Json): Dict {
    if payload.Obj? then payload.fields
    else if Iterated(payload).Some? then LeadingPairs(Iterated(payload).value)
    else []
  }

  /** `on_tool_result(...) or {}`; an extractor that raises answers nothing. */
  function Fragment(answer: HookReply): Json {
    if answer.Answer? && Truthy(answer.value) then answer.value else Obj([])
  }

  /** The references an answer adds. */
  function RefsOf(answer: HookReply): seq<Json> {
    var refs := GetOrNull(Fragment(answer), REFS);
    if Truthy(refs) && Iterated(refs).Some? then Iterated(refs).value else []
  }

  /** The payload keys an answer writes; none if its references cannot be added. */
  function PairsOf(answer: HookReply): Dict {
    if Extendable(GetOrNull(Fragment(answer), REFS))
      then Written(GetOrNull(Fragment(answer), LLM_PAYLOAD_FRAGMENT)) else []
  }

  /** The answers that can be taken in: falsy ones, and dicts whose two parts `extend` and `update` take. */
  predicate Usable(answer: HookReply) {
    var fragment := Fragment(answer);
    && fragment.Obj?
    && Extendable(GetOrNull(fragment, REFS))
    && Updatable(GetOrNull(fragment, LLM_PAYLOAD_FRAGMENT))
  }

  // ---- what an answer adds, shape by shape ------------------------------------

  /** An answer of the documented shape: a dict whose two parts are a list and a dict, or left out. */
  predicate Documented(answer: HookReply, refs: seq<Json>, payload: Dict) {
    && answer.Answer? && answer.value.Obj?
    && Get(answer.value, "refs") in {Some(Arr(refs)), if refs == [] then None else Some(Arr(refs))}
    && Get(answer.value, "llm_payload_fragment")
         in {Some(Obj(payload)), if payload == [] then None else Some(Obj(payload))}
  }

  /** It adds all its references in order, and writes all its payload. */
  lemma DocumentedIsTaken(answer: HookReply, refs: seq<Json>, payload: Dict)
    requires Documented(answer, refs, payload)
    ensures Usable(answer) && RefsOf(answer) == refs && PairsOf(answer) == payload
  {
  }

  /** An extractor that raises, or answers something falsy, adds nothing. */
  lemma NothingIsTaken(answer: HookReply)
    requires answer.HookRaises? || !Truthy(answer.value)
    ensures Usable(answer) && RefsOf(answer) == [] && PairsOf(answer) == []
  {
  }

  /** References in a string are its characters, in a dict its keys; a payload of pairs is those pairs. */
  lemma OtherShapesTaken(fragment: Dict)
    ensures var refs := Lookup(fragment, "refs");
      && (refs.Some? && refs.value.Str? ==>
           && |RefsOf(Answer(Obj(fragment)))| == |refs.value.s|
           && forall i :: 0 <= i < |refs.value.s| ==> RefsOf(Answer(Obj(fragment)))[i] == Str([refs.value.s[i]]))
      && (refs.Some? && refs.value.Obj? ==>
           && |RefsOf(Answer(Obj(fragment)))| == |refs.value.fields|
           && forall i :: 0 <= i < |refs.value.fields| ==>
                RefsOf(Answer(Obj(fragment)))[i] == Str(refs.value.fields[i].key))
  {
    if Lookup(fragment, "refs").Some? {
      assert fragment != [];
    }
  }

  lemma {:induction false} PairsAreTaken(pairs: Dict, items: seq<Json>)
    requires |items| == |pairs|
    requires forall i :: 0 <= i < |items| ==> items[i] == Arr([Str(pairs[i].key), pairs[i].value])
    ensures Updatable(Arr(items)) && Written(Arr(items)) == pairs
  {
    if items != [] {
      assert PairFrom(items[0]) == Some(pairs[0]);
      PairsAreTaken(pairs[1..], items[1..]);
    }
  }

  /** What `extend` takes: anything falsy, a list, a string, a dict. */
  predicate ListLike(v: Option<Json>) {
    v.Some? && Truthy(v.value) ==> v.value.Arr? || v.value.Str? || v.value.Obj?
  }

  /** Two parts, the first of which can be a key: a list of two, a string of two characters, a dict of two keys. */
  predicate PairLike(j: Json) {
    match j
    case Arr(parts) => |parts| == 2 && !parts[0].Arr? && !parts[0].Obj?
    case Str(s) => |s| == 2
    case Obj(fields) => |fields| == 2
    case _ => false
  }

  /** What `update` takes: anything falsy, a dict, a list of pairs. */
  predicate DictLike(v: Option<Json>) {
    v.Some? && Truthy(v.value) ==>
      v.value.Obj? || (v.value.Arr? && forall i :: 0 <= i < |v.value.items| ==> PairLike(v.value.items[i]))
  }

  lemma PairsAreTwoParts(j: Json)
    ensures PairFrom(j).Some? <==> PairLike(j)
  {
  }

  /** The answers that can be taken in, shape by shape. */
  lemma UsableShapes(answer: HookReply)
    ensures Usable(answer) <==>
      || answer.HookRaises? || !Truthy(answer.value)
      || (&& answer.value.Obj? && ListLike(Lookup(answer.value.fields, "refs"))
          && DictLike(Lookup(answer.value.fields, "llm_payload_fragment")))
  {
    if answer.Answer? && answer.value.Obj? {
      var payload := GetOrNull(answer.value, LLM_PAYLOAD_FRAGMENT);
      if payload.Arr? {
        forall i | 0 <= i < |payload.items| ensures PairFrom(payload.items[i]).Some? <==> PairLike(payload.items[i]) {
          PairsAreTwoParts(payload.items[i]);
        }
      } else if payload.Str? && payload.s != "" {
        var chars := Iterated(payload).value;
        PairsAreTwoParts(chars[0]);
      }
    }
  }
}
