/**
 White space is insignificant (section 2 of RFC 8259): a value reads the same however its tokens
 are spaced, the compact texts models send included.
 */
module JsonSpacing {
  import opened Results
  import opened JsonValues
  import opened JsonText

  /** What stands after an opening bracket, before a closing one or a separator, and after a separator. */
  datatype Spacing = Spacing(open: string, before: string, after: string)

  ghost predicate AllWhite(s: string) {
    forall i :: 0 <= i < |s| ==> IsWhiteSpace(s[i])
  }

  ghost predicate White(sp: Spacing) {
    AllWhite(sp.open) && AllWhite(sp.before) && AllWhite(sp.after)
  }

  function Spaced(j: Json, ascii: bool, sp: Spacing): string
    decreases j, 0
  {
    match j
    case Arr(items) => "[" + (sp.open + SpacedItems(items, ascii, sp))
    case Obj(fields) => "{" + (sp.open + SpacedFields(fields, ascii, sp))
    case _ => Dumps(j, ascii)
  }

  function SpacedItems(items: seq<Json>, ascii: bool, sp: Spacing): string
    decreases items, 0
  {
    if items == [] then "]"
    else Spaced(items[0], ascii, sp) + (sp.before + ItemsEnd(items[1..], ascii, sp))
  }

  /** The closing bracket, or a comma and the rest. */
  function ItemsEnd(rest: seq<Json>, ascii: bool, sp: Spacing): string
    decreases rest, 1
  {
    if rest == [] then "]" else "," + (sp.after + SpacedItems(rest, ascii, sp))
  }

  function SpacedFields(fields: Dict, ascii: bool, sp: Spacing): string
    decreases fields, 0
  {
    if fields == [] then "}" else
    StringText(fields[0].key, ascii) + (sp.before + (":" + (sp.after +
      (Spaced(fields[0].value, ascii, sp) + (sp.before + FieldsEnd(fields[1..], ascii, sp))))))
  }

  function FieldsEnd(rest: Dict, ascii: bool, sp: Spacing): string
    decreases rest, 1
  {
    if rest == [] then "}" else "," + (sp.after + SpacedFields(rest, ascii, sp))
  }

  lemma {:induction false} WhiteIsSkipped(white: string, s: string)
    requires AllWhite(white)
    ensures SkipWs(white + s) == SkipWs(s)
  {
    if white == "" {
      assert "" + s == s;
    } else {
      assert (white + s)[1..] == white[1..] + s;
      WhiteIsSkipped(white[1..], s);
    }
  }

  lemma WhiteIsNotRead(white: string, s: string)
    requires AllWhite(white)
    ensures ReadValue(white + s) == ReadValue(s)
    ensures ReadItems(white + s) == ReadItems(s) && ReadFields(white + s) == ReadFields(s)
  {
    WhiteIsSkipped(white, s);
  }

  lemma WhiteDelimits(white: string, s: string)
    requires AllWhite(white) && Delimited(s)
    ensures Delimited(white + s)
  {
    if white == "" {
      assert "" + s == s;
    }
  }

  /** A value starts with none of the characters the reader skips or stops at. */
  lemma SpacedHead(j: Json, ascii: bool, sp: Spacing, rest: string)
    ensures var s := Spaced(j, ascii, sp) + rest; s != "" && s[0] != ']' && SkipWs(s) == s
  {
    if !j.Arr? && !j.Obj? {
      DumpsHead(j, ascii, rest);
    }
  }

  lemma {:induction false} ReadSpaced(j: Json, ascii: bool, sp: Spacing, rest: string)
    requires White(sp) && Wf(j) && Delimited(rest)
    ensures ReadValue(Spaced(j, ascii, sp) + rest) == Some((j, rest))
    decreases j, 0
  {
    match j
    case Arr(items) =>
      if items != [] { ReadSpacedItems(items, ascii, sp, rest); }
      ReadSpacedArray(items, ascii, sp, rest);
    case Obj(fields) =>
      if fields != [] { ReadSpacedFields(fields, ascii, sp, rest); }
      ReadSpacedObject(fields, ascii, sp, rest);
    case _ => ReadDumps(j, ascii, rest);
  }

  lemma ReadSpacedArray(items: seq<Json>, ascii: bool, sp: Spacing, rest: string)
    requires White(sp)
    requires items != [] ==> ReadItems(SpacedItems(items, ascii, sp) + rest) == Some((items, rest))
    ensures ReadValue(Spaced(Arr(items), ascii, sp) + rest) == Some((Arr(items), rest))
  {
    var body := SpacedItems(items, ascii, sp) + rest;
    var s := Spaced(Arr(items), ascii, sp) + rest;
    assert s[1..] == sp.open + body;
    WhiteIsSkipped(sp.open, body);
    if items == [] {
      assert body[1..] == rest;
    } else {
      SpacedItemsHead(items, ascii, sp, rest);
    }
  }

  lemma SpacedItemsHead(items: seq<Json>, ascii: bool, sp: Spacing, rest: string)
    requires items != []
    ensures var s := SpacedItems(items, ascii, sp) + rest; s != "" && s[0] != ']' && SkipWs(s) == s
  {
    var tail := sp.before + ItemsEnd(items[1..], ascii, sp);
    Assoc(Spaced(items[0], ascii, sp), tail, rest);
    SpacedHead(items[0], ascii, sp, tail + rest);
  }

  lemma ReadSpacedLast(s: string, v: Json, white: string, rest: string)
    requires AllWhite(white) && ReadValue(s) == Some((v, white + ("]" + rest)))
    ensures ReadItems(s) == Some(([v], rest))
  {
    WhiteIsSkipped(white, "]" + rest);
    assert ("]" + rest)[1..] == rest;
  }

  lemma ReadSpacedNext(s: string, v: Json, white: string, after: string, more: string, vs: seq<Json>, rest: string)
    requires AllWhite(white) && AllWhite(after) && ReadValue(s) == Some((v, white + ("," + (after + more))))
    requires ReadItems(more) == Some((vs, rest))
    ensures ReadItems(s) == Some(([v] + vs, rest))
  {
    WhiteIsSkipped(white, "," + (after + more));
    assert ("," + (after + more))[1..] == after + more;
    WhiteIsNotRead(after, more);
  }

  lemma ItemsRegroup(items: seq<Json>, ascii: bool, sp: Spacing, rest: string)
    requires items != []
    ensures SpacedItems(items, ascii, sp) + rest
      == Spaced(items[0], ascii, sp) + (sp.before + (ItemsEnd(items[1..], ascii, sp) + rest))
  {
    Assoc(Spaced(items[0], ascii, sp), sp.before + ItemsEnd(items[1..], ascii, sp), rest);
    Assoc(sp.before, ItemsEnd(items[1..], ascii, sp), rest);
  }

  lemma {:induction false} ReadSpacedItems(items: seq<Json>, ascii: bool, sp: Spacing, rest: string)
    requires White(sp) && items != [] && forall i :: 0 <= i < |items| ==> Wf(items[i])
    ensures ReadItems(SpacedItems(items, ascii, sp) + rest) == Some((items, rest))
    decreases items, 0
  {
    var (s, stop) := (SpacedItems(items, ascii, sp) + rest, ItemsEnd(items[1..], ascii, sp) + rest);
    assert items == [items[0]] + items[1..];
    ItemsRegroup(items, ascii, sp, rest);
    WhiteDelimits(sp.before, stop);
    ReadSpaced(items[0], ascii, sp, sp.before + stop);
    if |items| == 1 {
      assert items[1..] == [] && items == [items[0]];
      ReadSpacedLast(s, items[0], sp.before, rest);
    } else {
      var more := SpacedItems(items[1..], ascii, sp) + rest;
      CommaRegroup(sp.after, SpacedItems(items[1..], ascii, sp), rest);
      ReadSpacedItems(items[1..], ascii, sp, rest);
      ReadSpacedNext(s, items[0], sp.before, sp.after, more, items[1..], rest);
    }
  }

  lemma CommaRegroup(after: string, more: string, rest: string)
    ensures "," + (after + more) + rest == "," + (after + (more + rest))
  {
  }

  lemma ReadSpacedObject(fields: Dict, ascii: bool, sp: Spacing, rest: string)
    requires White(sp) && UniqueKeys(fields)
    requires fields != [] ==> ReadFields(SpacedFields(fields, ascii, sp) + rest) == Some((fields, rest))
    ensures ReadValue(Spaced(Obj(fields), ascii, sp) + rest) == Some((Obj(fields), rest))
  {
    var body := SpacedFields(fields, ascii, sp) + rest;
    Assoc("{", sp.open + SpacedFields(fields, ascii, sp), rest);
    Assoc(sp.open, SpacedFields(fields, ascii, sp), rest);
    if fields == [] {
      ReadSpacedEmpty(sp.open, rest);
    } else {
      ReadSpacedBraced(sp.open, body, fields, rest);
    }
  }

  lemma ReadSpacedEmpty(open: string, rest: string)
    requires AllWhite(open)
    ensures ReadValue("{" + (open + ("}" + rest))) == Some((Obj([]), rest))
  {
    var s := "{" + (open + ("}" + rest));
    assert s[1..] == open + ("}" + rest) && ("}" + rest)[1..] == rest;
    WhiteIsSkipped(open, "}" + rest);
  }

  lemma ReadSpacedBraced(open: string, body: string, fields: Dict, rest: string)
    requires AllWhite(open) && UniqueKeys(fields) && ReadFields(body) == Some((fields, rest))
    requires body != "" && body[0] == '\"'
    ensures ReadValue("{" + (open + body)) == Some((Obj(fields), rest))
  {
    assert ("{" + (open + body))[1..] == open + body;
    WhiteIsSkipped(open, body);
    assert [] + fields == fields;
    UpdateFresh([], fields);
  }

  /** One member: its key, a colon, its value, and what follows. */
  lemma ReadMember(f: Field, ascii: bool, sp: Spacing, value: string, t: string)
    requires White(sp) && ReadValue(value) == Some((f.value, t))
    ensures var colon := ":" + (sp.after + value);
      var s := StringText(f.key, ascii) + (sp.before + colon);
      && s != "" && s[0] == '\"' && SkipWs(s) == s
      && ReadString(s[1..]) == Some((f.key, sp.before + colon))
      && SkipWs(sp.before + colon) == colon && ReadValue(colon[1..]) == Some((f.value, t))
  {
    var colon := ":" + (sp.after + value);
    ReadKey(f.key, ascii, sp.before + colon);
    WhiteIsSkipped(sp.before, colon);
    assert colon[1..] == sp.after + value;
    WhiteIsNotRead(sp.after, value);
  }

  lemma ReadSpacedLastField(f: Field, ascii: bool, sp: Spacing, value: string, rest: string)
    requires White(sp) && ReadValue(value) == Some((f.value, sp.before + ("}" + rest)))
    ensures ReadFields(StringText(f.key, ascii) + (sp.before + (":" + (sp.after + value)))) == Some(([f], rest))
  {
    ReadMember(f, ascii, sp, value, sp.before + ("}" + rest));
    WhiteIsSkipped(sp.before, "}" + rest);
    assert ("}" + rest)[1..] == rest;
  }

  lemma ReadSpacedNextField(
    f: Field, ascii: bool, sp: Spacing, value: string, more: string, fs: Dict, rest: string)
    requires White(sp) && ReadValue(value) == Some((f.value, sp.before + ("," + (sp.after + more))))
    requires ReadFields(more) == Some((fs, rest))
    ensures ReadFields(StringText(f.key, ascii) + (sp.before + (":" + (sp.after + value)))) == Some(([f] + fs, rest))
  {
    ReadMember(f, ascii, sp, value, sp.before + ("," + (sp.after + more)));
    WhiteIsSkipped(sp.before, "," + (sp.after + more));
    assert ("," + (sp.after + more))[1..] == sp.after + more;
    WhiteIsNotRead(sp.after, more);
  }

  lemma FieldsRegroup(fields: Dict, ascii: bool, sp: Spacing, rest: string)
    requires fields != []
    ensures SpacedFields(fields, ascii, sp) + rest
      == StringText(fields[0].key, ascii) + (sp.before + (":" + (sp.after +
           (Spaced(fields[0].value, ascii, sp) + (sp.before + (FieldsEnd(fields[1..], ascii, sp) + rest))))))
  {
    var (key, value) := (StringText(fields[0].key, ascii), Spaced(fields[0].value, ascii, sp));
    var end := FieldsEnd(fields[1..], ascii, sp);
    Assoc(key, sp.before + (":" + (sp.after + (value + (sp.before + end)))), rest);
    Assoc(sp.before, ":" + (sp.after + (value + (sp.before + end))), rest);
    Assoc(":", sp.after + (value + (sp.before + end)), rest);
    Assoc(sp.after, value + (sp.before + end), rest);
    Assoc(value, sp.before + end, rest);
    Assoc(sp.before, end, rest);
  }

  lemma {:induction false} ReadSpacedFields(fields: Dict, ascii: bool, sp: Spacing, rest: string)
    requires White(sp) && fields != [] && forall i :: 0 <= i < |fields| ==> Wf(fields[i].value)
    ensures ReadFields(SpacedFields(fields, ascii, sp) + rest) == Some((fields, rest))
    decreases fields, 0
  {
    var (f, stop) := (fields[0], FieldsEnd(fields[1..], ascii, sp) + rest);
    var value := Spaced(f.value, ascii, sp) + (sp.before + stop);
    assert fields == [f] + fields[1..];
    FieldsRegroup(fields, ascii, sp, rest);
    WhiteDelimits(sp.before, stop);
    ReadSpaced(f.value, ascii, sp, sp.before + stop);
    if |fields| == 1 {
      assert fields[1..] == [] && fields == [f];
      ReadSpacedLastField(f, ascii, sp, value, rest);
    } else {
      var more := SpacedFields(fields[1..], ascii, sp) + rest;
      CommaRegroup(sp.after, SpacedFields(fields[1..], ascii, sp), rest);
      ReadSpacedFields(fields[1..], ascii, sp, rest);
      ReadSpacedNextField(f, ascii, sp, value, more, fields[1..], rest);
    }
  }

  /** However a value is spaced, inside and around, reading it gives it back. */
  lemma SpacedReads(j: Json, ascii: bool, sp: Spacing, lead: string, trail: string)
    requires Wf(j) && White(sp) && AllWhite(lead) && AllWhite(trail)
    ensures Loads(lead + Spaced(j, ascii, sp) + trail) == Some(j)
  {
    Assoc(lead, Spaced(j, ascii, sp), trail);
    WhiteIsNotRead(lead, Spaced(j, ascii, sp) + trail);
    ReadSpaced(j, ascii, sp, trail);
    WhiteIsSkipped(trail, "");
    assert trail + "" == trail;
  }

  /** Anything more than white space after a value makes the text no JSON. */
  lemma TrailingTextIsRefused(j: Json, ascii: bool, sp: Spacing, rest: string)
    requires Wf(j) && White(sp) && Delimited(rest) && SkipWs(rest) != ""
    ensures Loads(Spaced(j, ascii, sp) + rest) == None
  {
    ReadSpaced(j, ascii, sp, rest);
  }

  /** Of a repeated key the last value counts. */
  lemma RepeatedKeysRead(fields: Dict, ascii: bool, sp: Spacing, key: string)
    requires White(sp) && fields != [] && forall i :: 0 <= i < |fields| ==> Wf(fields[i].value)
    ensures var read := Loads(Spaced(Obj(fields), ascii, sp));
      read.Some? && read.value.Obj? && Get(read.value, key) == LastValue(fields, key)
  {
    var text := Spaced(Obj(fields), ascii, sp);
    var body := SpacedFields(fields, ascii, sp);
    ReadSpacedFields(fields, ascii, sp, "");
    assert body + "" == body && text[1..] == sp.open + body;
    WhiteIsSkipped(sp.open, body);
    LookupUpdate([], fields, key);
  }
}
