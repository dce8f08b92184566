/**
 The JSON printer and reader of Python's `json` module, restricted to the values
 of `JsonValues`: strings as in section 7, arrays and objects as in sections 4
 and 5 of RFC 8259, numbers without fraction or exponent.
 */
module JsonText {
  import opened Results
  import opened JsonValues

  // ---- printing -------------------------------------------------

  function HexDigit(d: int): char
    requires 0 <= d < 16
  {
    (if d < 10 then '0' as int + d else 'a' as int + d - 10) as char
  }

  function Hex4(n: int): string
    requires 0 <= n < 0x1_0000
  {
    var (q1, q2, q3) := (n / 16, n / 16 / 16, n / 16 / 16 / 16);
    [HexDigit(q3), HexDigit(q2 % 16), HexDigit(q1 % 16), HexDigit(n % 16)]
  }

  function UnicodeEscape(n: int): string
    requires 0 <= n < 0x1_0000
  {
    ['\\', 'u'] + Hex4(n)
  }

  /** The surrogate pair of a character beyond `U+FFFF`. */
  function High(c: char): int {
    0xD800 + (c as int - 0x1_0000) / 1024
  }

  function Low(c: char): int {
    0xDC00 + (c as int - 0x1_0000) % 1024
  }

  function FromSurrogates(high: int, low: int): char
    requires 0xD800 <= high < 0xDC00 <= low < 0xE000
  {
    (0x1_0000 + (high - 0xD800) * 1024 + (low - 0xDC00)) as char
  }

  /** A character outside the plain range: one escape, or a surrogate pair beyond `U+FFFF`. */
  function UnicodeText(c: char): string {
    if c as int < 0x1_0000 then UnicodeEscape(c as int)
    else UnicodeEscape(High(c)) + UnicodeEscape(Low(c))
  }

  predicate Printable(c: char) {
    ' ' <= c <= '~'
  }

  /** The letter after the backslash, for the characters that have a two-character escape. */
  function ShortEscape(c: char): Option<char> {
    if c == '\"' || c == '\\' then Some(c)
    else if c == '\n' then Some('n')
    else if c == '\r' then Some('r')
    else if c == '\t' then Some('t')
    else if c as int == 0x0C then Some('f')
    else if c as int == 0x08 then Some('b')
    else None
  }

  /** One character inside a string literal; `ascii` is Python's `ensure_ascii`. */
  function EscapeChar(c: char, ascii: bool): string {
    if ShortEscape(c).Some? then ['\\', ShortEscape(c).value]
    else if c >= ' ' && (!ascii || Printable(c)) then [c]
    else UnicodeText(c)
  }

  function EscapeAll(s: string, ascii: bool): string {
    if s == "" then "" else EscapeChar(s[0], ascii) + EscapeAll(s[1..], ascii)
  }

  function StringText(s: string, ascii: bool): string {
    "\"" + (EscapeAll(s, ascii) + "\"")
  }

  function Digit(d: nat): char
    requires d < 10
  {
    ('0' as int + d) as char
  }

  function NatText(n: nat): string {
    if n < 10 then [Digit(n)] else NatText(n / 10) + [Digit(n % 10)]
  }

  function IntText(n: int): string {
    if n < 0 then "-" + NatText(-n) else NatText(n)
  }

  /** `json.dumps(j, ensure_ascii=ascii)`. */
  function Dumps(j: Json, ascii: bool): string {
    match j
    case Null => "null"
    case Bool(b) => if b then "true" else "false"
    case Num(n) => IntText(n)
    case Str(s) => StringText(s, ascii)
    case Arr(items) => "[" + ItemsText(items, ascii)
    case Obj(fields) => "{" + FieldsText(fields, ascii)
  }

  /** The items of an array, up to and including the closing bracket. */
  function ItemsText(items: seq<Json>, ascii: bool): string {
    if items == [] then "]"
    else Dumps(items[0], ascii) + (if |items| == 1 then "]" else ", " + ItemsText(items[1..], ascii))
  }

  /** The members of an object, up to and including the closing brace. */
  function FieldsText(fields: Dict, ascii: bool): string {
    if fields == [] then "}" else
    StringText(fields[0].key, ascii) + (": " + (Dumps(fields[0].value, ascii) +
      (if |fields| == 1 then "}" else ", " + FieldsText(fields[1..], ascii))))
  }

  // ---- reading --------------------------------------------------

  predicate IsWhiteSpace(c: char) {
    c == ' ' || c == '\t' || c == '\n' || c == '\r'
  }

  function SkipWs(s: string): (t: string)
    ensures |t| <= |s|
  {
    if s != "" && IsWhiteSpace(s[0]) then SkipWs(s[1..]) else s
  }

  function HexVal(c: char): (r: Option<int>)
    ensures r.Some? ==> 0 <= r.value < 16
  {
    if '0' <= c <= '9' then Some(c as int - '0' as int)
    else if 'a' <= c <= 'f' then Some(c as int - 'a' as int + 10)
    else if 'A' <= c <= 'F' then Some(c as int - 'A' as int + 10)
    else None
  }

  function ReadHex4(s: string): (r: Option<(int, string)>)
    ensures r.Some? ==> 0 <= r.value.0 < 0x1_0000 && |r.value.1| < |s|
  {
    if |s| < 4 then None else
    var a :- HexVal(s[0]);
    var b :- HexVal(s[1]);
    var c :- HexVal(s[2]);
    var d :- HexVal(s[3]);
    Some((a * 4096 + b * 256 + c * 16 + d, s[4..]))
  }

  /** What follows a `\u`; a lone surrogate has no character in this model. */
  function ReadUnicode(s: string): (r: Option<(char, string)>)
    ensures r.Some? ==> |r.value.1| < |s|
  {
    var (n, rest) :- ReadHex4(s);
    if 0xD800 <= n < 0xDC00 then
      if |rest| < 2 || rest[0] != '\\' || rest[1] != 'u' then None else
      var (low, rest2) :- ReadHex4(rest[2..]);
      if 0xDC00 <= low < 0xE000
        then Some((FromSurrogates(n, low), rest2))
        else None
    else if 0xDC00 <= n < 0xE000 then None
    else Some((n as char, rest))
  }

  function ShortUnescape(c: char): Option<char> {
    if c == '\"' || c == '\\' || c == '/' then Some(c)
    else if c == 'n' then Some('\n')
    else if c == 'r' then Some('\r')
    else if c == 't' then Some('\t')
    else if c == 'f' then Some(0x0C as char)
    else if c == 'b' then Some(0x08 as char)
    else None
  }

  /** One character of a string literal, raw or escaped. */
  function ReadChar(s: string): (r: Option<(char, string)>)
    ensures r.Some? ==> |r.value.1| < |s|
  {
    if s == "" || s[0] < ' ' then None
    else if s[0] != '\\' then Some((s[0], s[1..]))
    else if |s| < 2 then None
    else if ShortUnescape(s[1]).Some? then Some((ShortUnescape(s[1]).value, s[2..]))
    else if s[1] == 'u' then ReadUnicode(s[2..])
    else None
  }

  /** The rest of a string literal, after its opening quote. */
  function ReadString(s: string): (r: Option<(string, string)>)
    ensures r.Some? ==> |r.value.1| < |s|
    decreases |s|
  {
    if s == "" then None
    else if s[0] == '\"' then Some(("", s[1..]))
    else
      var (c, rest) :- ReadChar(s);
      var (t, rest2) :- ReadString(rest);
      Some(([c] + t, rest2))
  }

  predicate IsDigit(c: char) {
    '0' <= c <= '9'
  }

  function ReadDigits(s: string, acc: nat): (r: (nat, string))
    ensures |r.1| <= |s|
  {
    if s != "" && IsDigit(s[0]) then ReadDigits(s[1..], acc * 10 + (s[0] as int - '0' as int)) else (acc, s)
  }

  /** An unsigned integer: a leading zero stands alone. */
  function ReadNat(s: string): (r: Option<(nat, string)>)
    ensures r.Some? ==> |r.value.1| < |s|
  {
    if s == "" || !IsDigit(s[0]) then None
    else if s[0] == '0' then Some((0, s[1..]))
    else Some(ReadDigits(s[1..], s[0] as int - '0' as int))
  }

  predicate StartsWith(s: string, prefix: string) {
    |prefix| <= |s| && s[..|prefix|] == prefix
  }

  function ReadValue(text: string): (r: Option<(Json, string)>)
    ensures r.Some? ==> |r.value.1| < |text|
    decreases |text|, 1
  {
    var s := SkipWs(text);
    if s == "" then None
    else if s[0] == '\"' then
      var (t, rest) :- ReadString(s[1..]);
      Some((Str(t), rest))
    else if s[0] == '[' then
      var t := SkipWs(s[1..]);
      if t != "" && t[0] == ']' then Some((Arr([]), t[1..])) else
      var (items, rest) :- ReadItems(t);
      Some((Arr(items), rest))
    else if s[0] == '{' then
      var t := SkipWs(s[1..]);
      if t != "" && t[0] == '}' then Some((Obj([]), t[1..])) else
      var (pairs, rest) :- ReadFields(t);
      Some((Obj(DictOf(pairs)), rest))
    else if s[0] == '-' then
      var (n: int, rest) :- ReadNat(s[1..]);
      Some((Num(0 - n), rest))
    else if IsDigit(s[0]) then
      var (n, rest) :- ReadNat(s);
      Some((Num(n), rest))
    else if StartsWith(s, "null") then Some((Null, s[4..]))
    else if StartsWith(s, "true") then Some((Bool(true), s[4..]))
    else if StartsWith(s, "false") then Some((Bool(false), s[5..]))
    else None
  }

  function ReadItems(s: string): (r: Option<(seq<Json>, string)>)
    ensures r.Some? ==> |r.value.1| < |s|
    decreases |s|, 2
  {
    var (v, rest) :- ReadValue(s);
    var t := SkipWs(rest);
    if t == "" then None
    else if t[0] == ']' then Some(([v], t[1..]))
    else if t[0] == ',' then
      var (vs, rest2) :- ReadItems(t[1..]);
      Some(([v] + vs, rest2))
    else None
  }

  function ReadFields(s: string): (r: Option<(Dict, string)>)
    ensures r.Some? ==> |r.value.1| < |s|
    decreases |s|, 2
  {
    var k := SkipWs(s);
    if k == "" || k[0] != '\"' then None else
    var (key, rest) :- ReadString(k[1..]);
    var colon := SkipWs(rest);
    if colon == "" || colon[0] != ':' then None else
    var (v, rest2) :- ReadValue(colon[1..]);
    var t := SkipWs(rest2);
    if t == "" then None
    else if t[0] == '}' then Some(([Field(key, v)], t[1..]))
    else if t[0] == ',' then
      var (fs, rest3) :- ReadFields(t[1..]);
      Some(([Field(key, v)] + fs, rest3))
    else None
  }

  /** `json.loads(text)`; `None` is its `ValueError`. */
  function Loads(text: string): Option<Json> {
    var (j, rest) :- ReadValue(text);
    if SkipWs(rest) == "" then Some(j) else None
  }

  // ---- the printer and the reader undo each other -----------------

  lemma HexDigitReads(d: int)
    requires 0 <= d < 16
    ensures HexVal(HexDigit(d)) == Some(d)
  {
  }

  lemma ReadHex4Hex4(n: int, rest: string)
    requires 0 <= n < 0x1_0000
    ensures ReadHex4(Hex4(n) + rest) == Some((n, rest))
  {
    var (q1, q2, q3) := (n / 16, n / 16 / 16, n / 16 / 16 / 16);
    var h := Hex4(n);
    var s := h + rest;
    assert s[4..] == rest;
    assert s[0] == h[0] && s[1] == h[1] && s[2] == h[2] && s[3] == h[3];
    HexDigitReads(q3);
    HexDigitReads(q2 % 16);
    HexDigitReads(q1 % 16);
    HexDigitReads(n % 16);
  }

  lemma ReadUnicodeBmp(n: int, rest: string)
    requires 0 <= n < 0xD800 || 0xE000 <= n < 0x1_0000
    ensures ReadChar(UnicodeEscape(n) + rest) == Some((n as char, rest))
  {
    var s := UnicodeEscape(n) + rest;
    assert s[2..] == Hex4(n) + rest;
    ReadHex4Hex4(n, rest);
  }

  lemma ReadUnicodePair(high: int, low: int, rest: string)
    requires 0xD800 <= high < 0xDC00 <= low < 0xE000
    ensures ReadChar(UnicodeEscape(high) + UnicodeEscape(low) + rest) == Some((FromSurrogates(high, low), rest))
  {
    var more := UnicodeEscape(low) + rest;
    var s := UnicodeEscape(high) + UnicodeEscape(low) + rest;
    assert s[2..] == Hex4(high) + more;
    ReadHex4Hex4(high, more);
    assert more[2..] == Hex4(low) + rest;
    ReadHex4Hex4(low, rest);
  }

  lemma SurrogatesRejoin(c: char)
    requires 0x1_0000 <= c as int
    ensures 0xD800 <= High(c) < 0xDC00 <= Low(c) < 0xE000 && FromSurrogates(High(c), Low(c)) == c
  {
  }

  lemma ShortEscapeReads(c: char, rest: string)
    requires ShortEscape(c).Some?
    ensures ReadChar(['\\', ShortEscape(c).value] + rest) == Some((c, rest))
  {
    var s := ['\\', ShortEscape(c).value] + rest;
    assert s[2..] == rest;
    assert ShortUnescape(ShortEscape(c).value) == Some(c);
  }

  lemma RawCharReads(c: char, rest: string)
    requires c >= ' ' && ShortEscape(c).None?
    ensures ReadChar([c] + rest) == Some((c, rest))
  {
    assert ([c] + rest)[1..] == rest;
  }

  lemma UnicodeTextReads(c: char, rest: string)
    ensures UnicodeText(c) != "" && UnicodeText(c)[0] == '\\'
    ensures ReadChar(UnicodeText(c) + rest) == Some((c, rest))
  {
    if c as int < 0x1_0000 {
      ReadUnicodeBmp(c as int, rest);
    } else {
      SurrogatesRejoin(c);
      ReadUnicodePair(High(c), Low(c), rest);
    }
  }

  lemma ReadEscapedChar(c: char, ascii: bool, rest: string)
    ensures EscapeChar(c, ascii) != "" && EscapeChar(c, ascii)[0] != '\"'
    ensures ReadChar(EscapeChar(c, ascii) + rest) == Some((c, rest))
  {
    if ShortEscape(c).Some? {
      ShortEscapeReads(c, rest);
    } else if c >= ' ' && (!ascii || Printable(c)) {
      RawCharReads(c, rest);
    } else {
      UnicodeTextReads(c, rest);
    }
  }

  lemma Assoc(a: string, b: string, c: string)
    ensures (a + b) + c == a + (b + c)
  {
  }

  lemma ReadStringStep(text: string, c: char, more: string, t: string, rest: string)
    requires text != "" && text[0] != '\"'
    requires ReadChar(text) == Some((c, more)) && ReadString(more) == Some((t, rest))
    ensures ReadString(text) == Some(([c] + t, rest))
  {
  }

  lemma {:induction false} ReadEscapedString(s: string, ascii: bool, rest: string)
    ensures ReadString(EscapeAll(s, ascii) + ("\"" + rest)) == Some((s, rest))
  {
    var tail := "\"" + rest;
    if s == "" {
      assert "" + tail == tail;
      assert tail[1..] == rest;
    } else {
      var e := EscapeChar(s[0], ascii);
      var more := EscapeAll(s[1..], ascii) + tail;
      Assoc(e, EscapeAll(s[1..], ascii), tail);
      ReadEscapedChar(s[0], ascii, more);
      ReadEscapedString(s[1..], ascii, rest);
      ReadStringStep(e + more, s[0], more, s[1..], rest);
      assert [s[0]] + s[1..] == s;
    }
  }

  lemma {:induction false} ReadPrintedDigits(n: nat, rest: string)
    ensures ReadDigits(NatText(n) + rest, 0) == ReadDigits(rest, n)
    ensures NatText(n) != "" && IsDigit(NatText(n)[0]) && (n > 0 ==> NatText(n)[0] != '0')
  {
    if n < 10 {
      assert (NatText(n) + rest)[1..] == rest;
    } else {
      var last := [Digit(n % 10)] + rest;
      assert NatText(n) + rest == NatText(n / 10) + last;
      ReadPrintedDigits(n / 10, last);
      assert last[1..] == rest;
    }
  }

  /** What may follow a printed value: nothing a number could swallow. */
  predicate Delimited(rest: string) {
    rest == "" || !IsDigit(rest[0])
  }

  lemma ReadPrintedNat(n: nat, rest: string)
    requires Delimited(rest)
    ensures ReadNat(NatText(n) + rest) == Some((n, rest))
  {
    ReadPrintedDigits(n, rest);
    var s := NatText(n) + rest;
    assert s[0] == NatText(n)[0];
    if n == 0 {
      assert s[1..] == rest;
    } else {
      assert ReadDigits(s, 0) == ReadDigits(s[1..], s[0] as int - '0' as int);
    }
  }

  /** A printed value starts with none of the characters the reader skips or stops at. */
  lemma DumpsHead(j: Json, ascii: bool, rest: string)
    ensures var s := Dumps(j, ascii) + rest;
      s != "" && !IsWhiteSpace(s[0]) && s[0] != ']' && s[0] != '<' && SkipWs(s) == s
  {
    if j.Num? {
      ReadPrintedDigits(if j.n < 0 then -j.n else j.n, rest);
    }
  }

  lemma ReadPrintedInt(n: int, rest: string)
    requires Delimited(rest)
    ensures ReadValue(IntText(n) + rest) == Some((Num(n), rest))
  {
    var s := IntText(n) + rest;
    var m: nat := if n < 0 then -n else n;
    ReadPrintedDigits(m, rest);
    ReadPrintedNat(m, rest);
    if n < 0 {
      assert s[1..] == NatText(m) + rest;
    } else {
      assert s[0] == NatText(m)[0];
    }
  }

  lemma ReadPrintedString(t: string, ascii: bool, rest: string)
    ensures ReadValue(StringText(t, ascii) + rest) == Some((Str(t), rest))
  {
    assert (StringText(t, ascii) + rest)[1..] == EscapeAll(t, ascii) + ("\"" + rest);
    ReadEscapedString(t, ascii, rest);
  }

  lemma {:induction false} ReadDumps(j: Json, ascii: bool, rest: string)
    requires Wf(j) && Delimited(rest)
    ensures ReadValue(Dumps(j, ascii) + rest) == Some((j, rest))
    decreases j, 0
  {
    var s := Dumps(j, ascii) + rest;
    match j
    case Null => assert s[..4] == "null" && s[4..] == rest;
    case Bool(b) =>
      if b { assert s[..4] == "true" && s[4..] == rest; } else { assert s[..5] == "false" && s[5..] == rest; }
    case Num(n) => ReadPrintedInt(n, rest);
    case Str(t) => ReadPrintedString(t, ascii, rest);
    case Arr(items) =>
      if items != [] { ReadPrintedItems(items, ascii, rest); }
      ReadPrintedArray(items, ascii, rest);
    case Obj(fields) =>
      if fields != [] { ReadPrintedFields(fields, ascii, rest); }
      ReadPrintedObject(fields, ascii, rest);
  }

  lemma ReadPrintedArray(items: seq<Json>, ascii: bool, rest: string)
    requires items != [] ==> ReadItems(ItemsText(items, ascii) + rest) == Some((items, rest))
    ensures ReadValue("[" + ItemsText(items, ascii) + rest) == Some((Arr(items), rest))
  {
    var s := "[" + ItemsText(items, ascii) + rest;
    assert s[1..] == ItemsText(items, ascii) + rest;
    if items == [] {
      assert s[1..][1..] == rest;
    } else {
      ItemsHead(items, ascii, rest);
    }
  }

  lemma ReadPrintedObject(fields: Dict, ascii: bool, rest: string)
    requires UniqueKeys(fields)
    requires fields != [] ==> ReadFields(FieldsText(fields, ascii) + rest) == Some((fields, rest))
    ensures ReadValue("{" + FieldsText(fields, ascii) + rest) == Some((Obj(fields), rest))
  {
    var t := FieldsText(fields, ascii) + rest;
    Assoc("{", FieldsText(fields, ascii), rest);
    if fields == [] {
      assert ("{" + t)[1..] == t && t[1..] == rest;
    } else {
      assert t[0] == '\"';
      ReadBraced(t, fields, rest);
    }
  }

  lemma ReadBraced(t: string, fields: Dict, rest: string)
    requires UniqueKeys(fields) && ReadFields(t) == Some((fields, rest))
    requires t != "" && t[0] == '\"'
    ensures ReadValue("{" + t) == Some((Obj(fields), rest))
  {
    assert ("{" + t)[1..] == t && SkipWs(t) == t;
    assert [] + fields == fields;
    UpdateFresh([], fields);
  }

  lemma ItemsHead(items: seq<Json>, ascii: bool, rest: string)
    requires items != []
    ensures var s := ItemsText(items, ascii) + rest; s != "" && s[0] != ']' && SkipWs(s) == s
  {
    var sep := if |items| == 1 then "]" else ", " + ItemsText(items[1..], ascii);
    assert ItemsText(items, ascii) + rest == Dumps(items[0], ascii) + (sep + rest);
    DumpsHead(items[0], ascii, sep + rest);
  }

  lemma ItemsTextSplits(items: seq<Json>, ascii: bool, rest: string)
    requires items != []
    ensures ItemsText(items, ascii) + rest == Dumps(items[0], ascii) +
      (if |items| == 1 then "]" + rest else ", " + (ItemsText(items[1..], ascii) + rest))
  {
    var sep := if |items| == 1 then "]" else ", " + ItemsText(items[1..], ascii);
    Assoc(Dumps(items[0], ascii), sep, rest);
    if |items| > 1 {
      Assoc(", ", ItemsText(items[1..], ascii), rest);
    }
  }

  lemma {:induction false} ReadPrintedItems(items: seq<Json>, ascii: bool, rest: string)
    requires items != [] && forall i :: 0 <= i < |items| ==> Wf(items[i])
    ensures ReadItems(ItemsText(items, ascii) + rest) == Some((items, rest))
    decreases items, 0
  {
    var s := ItemsText(items, ascii) + rest;
    ItemsTextSplits(items, ascii, rest);
    assert items == [items[0]] + items[1..];
    if |items| == 1 {
      ReadDumps(items[0], ascii, "]" + rest);
      ReadLastItem(s, items[0], rest);
      assert items == [items[0]];
    } else {
      var more := ItemsText(items[1..], ascii) + rest;
      ReadDumps(items[0], ascii, ", " + more);
      ReadPrintedItems(items[1..], ascii, rest);
      ReadNextItem(s, items[0], more, items[1..], rest);
    }
  }

  lemma ReadLastItem(s: string, v: Json, rest: string)
    requires ReadValue(s) == Some((v, "]" + rest))
    ensures ReadItems(s) == Some(([v], rest))
  {
    assert ("]" + rest)[1..] == rest;
  }

  lemma ReadNextItem(s: string, v: Json, more: string, vs: seq<Json>, rest: string)
    requires ReadValue(s) == Some((v, ", " + more))
    requires ReadItems(more) == Some((vs, rest))
    ensures ReadItems(s) == Some(([v] + vs, rest))
  {
    assert (", " + more)[1..] == " " + more;
    ReadItemsSkips(more);
  }

  lemma ReadValueSkips(s: string)
    ensures ReadValue(" " + s) == ReadValue(s)
  {
    assert (" " + s)[1..] == s;
    assert SkipWs(" " + s) == SkipWs(s);
  }

  lemma ReadItemsSkips(s: string)
    ensures ReadItems(" " + s) == ReadItems(s)
  {
    ReadValueSkips(s);
  }

  lemma ReadKey(key: string, ascii: bool, tail: string)
    ensures var s := StringText(key, ascii) + tail;
      s != "" && s[0] == '\"' && SkipWs(s) == s && ReadString(s[1..]) == Some((key, tail))
  {
    assert (StringText(key, ascii) + tail)[1..] == EscapeAll(key, ascii) + ("\"" + tail);
    ReadEscapedString(key, ascii, tail);
  }

  lemma ReadFieldHead(f: Field, ascii: bool, value: string, t: string)
    requires ReadValue(value) == Some((f.value, t))
    ensures var s := StringText(f.key, ascii) + (": " + value);
      && s != "" && s[0] == '\"' && SkipWs(s) == s
      && ReadString(s[1..]) == Some((f.key, ": " + value))
      && ReadValue((": " + value)[1..]) == Some((f.value, t))
  {
    ReadKey(f.key, ascii, ": " + value);
    assert (": " + value)[1..] == " " + value;
    ReadValueSkips(value);
  }

  lemma ReadLastField(f: Field, ascii: bool, value: string, rest: string)
    requires ReadValue(value) == Some((f.value, "}" + rest))
    ensures ReadFields(StringText(f.key, ascii) + (": " + value)) == Some(([f], rest))
  {
    ReadFieldHead(f, ascii, value, "}" + rest);
    assert ("}" + rest)[1..] == rest;
  }

  lemma ReadNextField(f: Field, ascii: bool, value: string, more: string, fs: Dict, rest: string)
    requires ReadValue(value) == Some((f.value, ", " + more))
    requires ReadFields(more) == Some((fs, rest))
    ensures ReadFields(StringText(f.key, ascii) + (": " + value)) == Some(([f] + fs, rest))
  {
    ReadFieldHead(f, ascii, value, ", " + more);
    assert (", " + more)[1..] == " " + more;
    ReadFieldsSkips(more);
  }

  lemma FieldsTextSplits(fields: Dict, ascii: bool, rest: string)
    requires fields != []
    ensures FieldsText(fields, ascii) + rest ==
      StringText(fields[0].key, ascii) + (": " + (Dumps(fields[0].value, ascii) +
        (if |fields| == 1 then "}" + rest else ", " + (FieldsText(fields[1..], ascii) + rest))))
  {
    var sep := if |fields| == 1 then "}" else ", " + FieldsText(fields[1..], ascii);
    var value := Dumps(fields[0].value, ascii);
    Assoc(StringText(fields[0].key, ascii), ": " + (value + sep), rest);
    Assoc(": ", value + sep, rest);
    Assoc(value, sep, rest);
    if |fields| > 1 {
      Assoc(", ", FieldsText(fields[1..], ascii), rest);
    }
  }

  lemma {:induction false} ReadPrintedFields(fields: Dict, ascii: bool, rest: string)
    requires fields != [] && forall i :: 0 <= i < |fields| ==> Wf(fields[i].value)
    ensures ReadFields(FieldsText(fields, ascii) + rest) == Some((fields, rest))
    decreases fields, 0
  {
    var f := fields[0];
    FieldsTextSplits(fields, ascii, rest);
    assert fields == [f] + fields[1..];
    if |fields| == 1 {
      ReadDumps(f.value, ascii, "}" + rest);
      ReadLastField(f, ascii, Dumps(f.value, ascii) + ("}" + rest), rest);
      assert fields == [f];
    } else {
      var more := FieldsText(fields[1..], ascii) + rest;
      ReadDumps(f.value, ascii, ", " + more);
      ReadPrintedFields(fields[1..], ascii, rest);
      ReadNextField(f, ascii, Dumps(f.value, ascii) + (", " + more), more, fields[1..], rest);
    }
  }

  lemma ReadFieldsSkips(s: string)
    ensures ReadFields(" " + s) == ReadFields(s)
  {
    assert (" " + s)[1..] == s;
    assert SkipWs(" " + s) == SkipWs(s);
  }

  /** `json.loads(json.dumps(j))` gives `j` back, in both escaping modes. */
  lemma RoundTrip(j: Json, ascii: bool)
    requires Wf(j)
    ensures Loads(Dumps(j, ascii)) == Some(j)
  {
    assert Dumps(j, ascii) + "" == Dumps(j, ascii);
    ReadDumps(j, ascii, "");
  }

  // ---- what the printed text looks like ---------------------------

  ghost predicate AllPrintable(s: string) {
    forall i :: 0 <= i < |s| ==> Printable(s[i])
  }

  lemma UnicodeEscapePrintable(n: int)
    requires 0 <= n < 0x1_0000
    ensures AllPrintable(UnicodeEscape(n))
  {
  }

  lemma EscapeCharPrintable(c: char)
    ensures AllPrintable(EscapeChar(c, true))
  {
    if c as int < 0x1_0000 {
      UnicodeEscapePrintable(c as int);
    } else {
      SurrogatesRejoin(c);
      UnicodeEscapePrintable(High(c));
      UnicodeEscapePrintable(Low(c));
    }
  }

  lemma {:induction false} EscapeAllPrintable(s: string)
    ensures AllPrintable(EscapeAll(s, true))
  {
    if s != "" {
      EscapeCharPrintable(s[0]);
      EscapeAllPrintable(s[1..]);
    }
  }

  lemma {:induction false} NatTextPrintable(n: nat)
    ensures AllPrintable(NatText(n))
  {
    if n >= 10 {
      NatTextPrintable(n / 10);
    }
  }

  /** With `ensure_ascii` every printed character is printable ASCII: in particular no line break. */
  lemma {:induction false} DumpsPrintable(j: Json)
    ensures AllPrintable(Dumps(j, true))
    decreases j, 0
  {
    match j
    case Num(n) => NatTextPrintable(if n < 0 then -n else n);
    case Str(s) => EscapeAllPrintable(s);
    case Arr(items) => ItemsPrintable(items);
    case Obj(fields) => FieldsPrintable(fields);
    case _ =>
  }

  lemma {:induction false} ItemsPrintable(items: seq<Json>)
    ensures AllPrintable(ItemsText(items, true))
    decreases items, 0
  {
    if items != [] {
      DumpsPrintable(items[0]);
      ItemsPrintable(items[1..]);
    }
  }

  lemma {:induction false} FieldsPrintable(fields: Dict)
    ensures AllPrintable(FieldsText(fields, true))
    decreases fields, 0
  {
    if fields != [] {
      EscapeAllPrintable(fields[0].key);
      DumpsPrintable(fields[0].value);
      FieldsPrintable(fields[1..]);
    }
  }

  // ---- exactly what is printed ---------------------------------------

  predicate LowerHex(c: char) {
    '0' <= c <= '9' || 'a' <= c <= 'f'
  }

  /** A `\u` escape: four lower-case hexadecimal digits. */
  predicate IsUnicodeEscape(s: string) {
    |s| == 6 && s[0] == '\\' && s[1] == 'u' && forall i :: 2 <= i < 6 ==> LowerHex(s[i])
  }

  lemma UnicodeEscapeForm(n: int)
    requires 0 <= n < 0x1_0000
    ensures IsUnicodeEscape(UnicodeEscape(n))
  {
    var h := Hex4(n);
    assert UnicodeEscape(n)[2..] == h;
  }

  /**
   Printable ASCII prints as itself but for the quote and the backslash; five control characters have
   a letter; everything else is escaped, unless it is past the control range and `ascii` is off.
   */
  lemma EscapeForms(c: char, ascii: bool)
    ensures var e := EscapeChar(c, ascii);
      if c == '\"' || c == '\\' then e == ['\\', c]
      else if c == '\n' then e == ['\\', 'n']
      else if c == '\r' then e == ['\\', 'r']
      else if c == '\t' then e == ['\\', 't']
      else if c == '\U{000C}' then e == ['\\', 'f']
      else if c == '\U{0008}' then e == ['\\', 'b']
      else if ' ' <= c <= '~' || (!ascii && c > '~') then e == [c]
      else if c <= '\U{FFFF}' then IsUnicodeEscape(e)
      else |e| == 12 && IsUnicodeEscape(e[..6]) && IsUnicodeEscape(e[6..])
  {
    if c as int < 0x1_0000 {
      UnicodeEscapeForm(c as int);
    } else {
      SurrogatesRejoin(c);
      UnicodeEscapeForm(High(c));
      UnicodeEscapeForm(Low(c));
      var e := UnicodeText(c);
      assert e[..6] == UnicodeEscape(High(c)) && e[6..] == UnicodeEscape(Low(c));
    }
  }

  function Joined(parts: seq<string>): string {
    if parts == [] then "" else if |parts| == 1 then parts[0] else parts[0] + ", " + Joined(parts[1..])
  }

  function Texts(items: seq<Json>, ascii: bool): seq<string> {
    seq(|items|, i requires 0 <= i < |items| => Dumps(items[i], ascii))
  }

  function Members(fields: Dict, ascii: bool): seq<string> {
    seq(|fields|, i requires 0 <= i < |fields| =>
      StringText(fields[i].key, ascii) + ": " + Dumps(fields[i].value, ascii))
  }

  lemma {:induction false} ItemsAreJoined(items: seq<Json>, ascii: bool)
    ensures ItemsText(items, ascii) == Joined(Texts(items, ascii)) + "]"
  {
    if items != [] {
      ItemsAreJoined(items[1..], ascii);
      assert Texts(items, ascii)[1..] == Texts(items[1..], ascii);
    }
  }

  lemma Regroup(key: string, value: string, rest: string)
    ensures key + (": " + (value + rest)) == (key + ": " + value) + rest
  {
  }

  lemma RegroupJoined(first: string, more: string, close: string)
    ensures first + (", " + (more + close)) == (first + ", " + more) + close
  {
  }

  lemma {:induction false} FieldsAreJoined(fields: Dict, ascii: bool)
    ensures FieldsText(fields, ascii) == Joined(Members(fields, ascii)) + "}"
  {
    if fields != [] {
      var (key, value) := (StringText(fields[0].key, ascii), Dumps(fields[0].value, ascii));
      var parts := Members(fields, ascii);
      FieldsAreJoined(fields[1..], ascii);
      assert parts[1..] == Members(fields[1..], ascii) && parts[0] == key + ": " + value;
      if |fields| == 1 {
        Regroup(key, value, "}");
      } else {
        Regroup(key, value, ", " + FieldsText(fields[1..], ascii));
        RegroupJoined(parts[0], Joined(parts[1..]), "}");
      }
    }
  }

  /** Python's default separators: a comma and a space, a colon and a space. */
  lemma ContainersAreJoined(items: seq<Json>, fields: Dict, ascii: bool)
    ensures Dumps(Arr(items), ascii) == "[" + Joined(Texts(items, ascii)) + "]"
    ensures Dumps(Obj(fields), ascii) == "{" + Joined(Members(fields, ascii)) + "}"
  {
    ItemsAreJoined(items, ascii);
    FieldsAreJoined(fields, ascii);
  }
}
