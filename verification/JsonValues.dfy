/**
 JSON values as Python holds them: a dict is an insertion-ordered list of
 fields with distinct keys, `None` is `Null`.
 */
module JsonValues {
  import opened Results

  datatype Json =
    | Null
    | Bool(b: bool)
    | Num(n: int)
    | Str(s: string)
    | Arr(items: seq<Json>)
    | Obj(fields: Dict)

  datatype Field = Field(key: string, value: Json)

  type Dict = seq<Field>

  /** `dict.get(key)`, with the missing key told apart from a stored `None`. */
  function Lookup(d: Dict, key: string): Option<Json> {
    if d == [] then None
    else if d[0].key == key then Some(d[0].value)
    else Lookup(d[1..], key)
  }

  /** `d[key] = value`: a known key keeps its place, a new one goes last. */
  function SetKey(d: Dict, key: string, value: Json): Dict {
    if d == [] then [Field(key, value)]
    else if d[0].key == key then [Field(key, value)] + d[1..]
    else [d[0]] + SetKey(d[1..], key, value)
  }

  /** `d.update(e)`. */
  function Update(d: Dict, e: Dict): Dict
    decreases |e|
  {
    if e == [] then d else Update(SetKey(d, e[0].key, e[0].value), e[1..])
  }

  /** `{k: v for k, v in d.items() if k not in keys}`. */
  function Without(d: Dict, keys: set<string>): Dict {
    if d == [] then []
    else if d[0].key in keys then Without(d[1..], keys)
    else [d[0]] + Without(d[1..], keys)
  }

  /** `dict(pairs)`: the last value of a repeated key wins. */
  function DictOf(pairs: Dict): Dict {
    Update([], pairs)
  }

  function KeysOf(d: Dict): set<string> {
    set f | f in d :: f.key
  }

  ghost predicate UniqueKeys(d: Dict) {
    forall i, j :: 0 <= i < j < |d| ==> d[i].key != d[j].key
  }

  /** No dict anywhere inside the value repeats a key. */
  ghost predicate Wf(j: Json) {
    match j
    case Arr(items) => forall i :: 0 <= i < |items| ==> Wf(items[i])
    case Obj(fields) => UniqueKeys(fields) && forall i :: 0 <= i < |fields| ==> Wf(fields[i].value)
    case _ => true
  }

  /** `j.get(key)` on a dict; anything else has no keys. */
  function Get(j: Json, key: string): Option<Json> {
    if j.Obj? then Lookup(j.fields, key) else None
  }

  /** `j.get(key)`, with `None` for a missing key. */
  function GetOrNull(j: Json, key: string): Json {
    var v := Get(j, key);
    if v.Some? then v.value else Null
  }

  /** Python truth. */
  predicate Truthy(j: Json) {
    match j
    case Null => false
    case Bool(b) => b
    case Num(n) => n != 0
    case Str(s) => s != ""
    case Arr(items) => items != []
    case Obj(fields) => fields != []
  }

  /** Exactly six values are falsy. */
  lemma FalsyValues(j: Json)
    ensures !Truthy(j) <==> j in {Null, Bool(false), Num(0), Str(""), Arr([]), Obj([])}
  {
  }

  lemma {:induction false} LookupSet(d: Dict, key: string, value: Json, q: string)
    ensures Lookup(SetKey(d, key, value), q) == if q == key then Some(value) else Lookup(d, q)
  {
    if d == [] || d[0].key == key {
    } else {
      LookupSet(d[1..], key, value, q);
    }
  }

  /** A known key keeps its place, and every other field stays as it was. */
  lemma {:induction false} SetKnownKey(d: Dict, key: string, value: Json)
    requires Lookup(d, key).Some?
    ensures |SetKey(d, key, value)| == |d|
    ensures forall i :: 0 <= i < |d| ==>
      SetKey(d, key, value)[i].key == d[i].key && (d[i].key != key ==> SetKey(d, key, value)[i] == d[i])
  {
    if d[0].key != key {
      SetKnownKey(d[1..], key, value);
    }
  }

  lemma LookupSingle(key: string, value: Json, q: string)
    ensures Lookup([Field(key, value)], q) == if q == key then Some(value) else None
  {
    assert [Field(key, value)][1..] == [];
  }

  lemma LookupPair(first: Field, second: Field, q: string)
    ensures Lookup([first, second], q) ==
      if q == first.key then Some(first.value) else if q == second.key then Some(second.value) else None
  {
    assert [first, second][1..] == [second];
    LookupSingle(second.key, second.value, q);
  }

  lemma {:induction false} LookupFinds(d: Dict, key: string)
    ensures Lookup(d, key).Some? <==> key in KeysOf(d)
  {
    if d != [] {
      LookupFinds(d[1..], key);
      assert d == [d[0]] + d[1..];
    }
  }

  lemma {:induction false} SetNewKey(d: Dict, key: string, value: Json)
    requires key !in KeysOf(d)
    ensures SetKey(d, key, value) == d + [Field(key, value)]
  {
    if d != [] {
      assert d[0] in d;
      assert forall f :: f in d[1..] ==> f in d;
      SetNewKey(d[1..], key, value);
    }
  }

  lemma {:induction false} UpdateFresh(d: Dict, e: Dict)
    requires UniqueKeys(d + e)
    ensures Update(d, e) == d + e
    decreases |e|
  {
    if e == [] {
      assert d + e == d;
    } else {
      assert (d + e)[|d|] == e[0];
      forall f | f in d ensures f.key != e[0].key {
        var i :| 0 <= i < |d| && d[i] == f;
        assert (d + e)[i] == f;
      }
      SetNewKey(d, e[0].key, e[0].value);
      assert d + e == (d + [e[0]]) + e[1..];
      UpdateFresh(d + [Field(e[0].key, e[0].value)], e[1..]);
    }
  }

  /** Filtering out keys is the identity exactly on dicts that have none of them. */
  lemma {:induction false} WithoutIdentity(d: Dict, keys: set<string>)
    ensures |Without(d, keys)| <= |d|
    ensures Without(d, keys) == d <==> KeysOf(d) !! keys
  {
    if d != [] {
      WithoutIdentity(d[1..], keys);
      assert d == [d[0]] + d[1..];
      assert KeysOf(d) == {d[0].key} + KeysOf(d[1..]);
    }
  }

  /** The last value given to a key. */
  function LastValue(e: Dict, key: string): Option<Json> {
    if e == [] then None
    else if LastValue(e[1..], key).Some? then LastValue(e[1..], key)
    else if e[0].key == key then Some(e[0].value)
    else None
  }

  /** `update` is last-write-wins, key by key. */
  lemma {:induction false} LookupUpdate(d: Dict, e: Dict, q: string)
    ensures Lookup(Update(d, e), q) == if LastValue(e, q).Some? then LastValue(e, q) else Lookup(d, q)
    decreases |e|
  {
    if e != [] {
      LookupSet(d, e[0].key, e[0].value, q);
      LookupUpdate(SetKey(d, e[0].key, e[0].value), e[1..], q);
    }
  }
}
