/** Compact JSON (RFC 8259): how values are written, and that what is written reads back. */
module Json {
  import opened Wrappers
  import opened Text

  /** A value as it stands in a text; a number is kept as it is spelled. */
  datatype Json = Str(text: string) | Num(spelling: string) | Bool(truth: bool) | Null | Arr(items: Items) | Obj(fields: Fields)

  datatype Items = NoItems | Item(head: Json, tail: Items)

  datatype Fields = NoFields | Field(name: string, value: Json, more: Fields)

  /** Of the two serialisers one writes printable ASCII alone, the other leaves in all it may. */
  datatype Style = AsciiOnly | AsIs

  // Characters

  function LowHex(n: int): char
    requires 0 <= n < 16
  {
    if n < 10 then ('0' as int + n) as char else ('a' as int + n - 10) as char
  }

  function Unit(n: int): string
    requires 0 <= n < 0x1_0000
  {
    ['\\', 'u', LowHex(n / 4096), LowHex(n / 256 % 16), LowHex(n / 16 % 16), LowHex(n % 16)]
  }

  /** The characters with an escape of their own, and what it is. */
  function Short(c: char): Option<char> {
    if c == '"' then Some('"') else if c == '\\' then Some('\\')
    else if c == '\n' then Some('n') else if c == '\r' then Some('r') else if c == '\t' then Some('t')
    else if c as int == 8 then Some('b') else if c as int == 12 then Some('f') else None
  }

  predicate Plain(style: Style, c: char) {
    Short(c).None? && c >= ' ' && (style.AsciiOnly? ==> c <= '~')
  }

  /** The two halves of a character beyond sixteen bits, and what they stand for. */
  function High(n: int): int {
    0xD800 + (n - 0x1_0000) / 0x400
  }

  function Low(n: int): int {
    0xDC00 + (n - 0x1_0000) % 0x400
  }

  function Pair(high: int, low: int): int {
    0x1_0000 + (high - 0xD800) * 0x400 + (low - 0xDC00)
  }

  function Escape(style: Style, c: char): string {
    var n := c as int;
    if Short(c).Some? then ['\\', Short(c).value]
    else if Plain(style, c) then [c]
    else if n < 0x1_0000 then Unit(n)
    else Unit(High(n)) + Unit(Low(n))
  }

  // Writing: each value before what follows it

  function PutChars(style: Style, s: string, rest: string): string {
    if s == "" then "\"" + rest else Escape(style, s[0]) + PutChars(style, s[1..], rest)
  }

  function PutText(style: Style, s: string, rest: string): string {
    "\"" + PutChars(style, s, rest)
  }

  function Put(style: Style, j: Json, rest: string): string
    decreases j
  {
    match j
    case Str(text) => PutText(style, text, rest)
    case Num(spelling) => spelling + rest
    case Bool(truth) => (if truth then "true" else "false") + rest
    case Null => "null" + rest
    case Arr(items) => "[" + (if items.NoItems? then "]" + rest else PutItems(style, items, rest))
    case Obj(fields) => "{" + (if fields.NoFields? then "}" + rest else PutFields(style, fields, rest))
  }

  function PutItems(style: Style, items: Items, rest: string): string
    requires items.Item?
    decreases items
  {
    Put(style, items.head, if items.tail.NoItems? then "]" + rest else "," + PutItems(style, items.tail, rest))
  }

  function PutFields(style: Style, fields: Fields, rest: string): string
    requires fields.Field?
    decreases fields
  {
    PutText(style, fields.name, ":" + Put(style, fields.value,
      if fields.more.NoFields? then "}" + rest else "," + PutFields(style, fields.more, rest)))
  }

  function Print(style: Style, j: Json): string {
    Put(style, j, "")
  }

  // Reading

  /** The number spelled by four hexadecimal digits. */
  function ReadUnit(s: string): (r: Option<int>)
    ensures r.Some? ==> |s| >= 4 && 0 <= r.value < 0x1_0000
  {
    if |s| < 4 then None
    else
      match (HexValue(s[0]), HexValue(s[1]), HexValue(s[2]), HexValue(s[3]))
      case (Some(a), Some(b), Some(c), Some(d)) => Some(a * 4096 + b * 256 + c * 16 + d)
      case _ => None
  }

  function Unshort(c: char): Option<char> {
    if c == '"' || c == '\\' || c == '/' then Some(c)
    else if c == 'n' then Some('\n') else if c == 'r' then Some('\r') else if c == 't' then Some('\t')
    else if c == 'b' then Some(8 as char) else if c == 'f' then Some(12 as char) else None
  }

  /** What four digits stand for, and two such units where the first is half of a pair. */
  function ReadEscape(s: string): (r: Option<(char, string)>)
    ensures r.Some? ==> |r.value.1| < |s|
  {
    match ReadUnit(s)
    case None => None
    case Some(n) =>
      if n < 0xD800 || 0xE000 <= n then Some((n as char, s[4..]))
      else if n < 0xDC00 && |s| > 6 && s[4] == '\\' && s[5] == 'u' then
        match ReadUnit(s[6..])
        case None => None
        case Some(low) =>
          if 0xDC00 <= low < 0xE000 then Some((Pair(n, low) as char, s[10..])) else None
      else None
  }

  function ReadChar(s: string): (r: Option<(char, string)>)
    ensures r.Some? ==> |r.value.1| < |s|
  {
    if s == "" || s[0] < ' ' || s[0] == '"' then None
    else if s[0] != '\\' then Some((s[0], s[1..]))
    else if |s| < 2 then None
    else if s[1] == 'u' then ReadEscape(s[2..])
    else if Unshort(s[1]).Some? then Some((Unshort(s[1]).value, s[2..])) else None
  }

  /** A text up to its closing quote. */
  function ReadChars(s: string): (r: Option<(string, string)>)
    ensures r.Some? ==> |r.value.1| < |s|
    decreases |s|
  {
    if s == "" then None
    else if s[0] == '"' then Some(("", s[1..]))
    else
      match ReadChar(s)
      case None => None
      case Some((c, rest)) =>
        match ReadChars(rest)
        case None => None
        case Some((more, after)) => Some(([c] + more, after))
  }

  predicate NumberChar(c: char) {
    '0' <= c <= '9' || c == '-' || c == '+' || c == '.' || c == 'e' || c == 'E'
  }

  function NumberRun(s: string): (n: nat)
    ensures n <= |s|
  {
    if s == "" || !NumberChar(s[0]) then 0 else 1 + NumberRun(s[1..])
  }

  function Read(s: string): (r: Option<(Json, string)>)
    ensures r.Some? ==> |r.value.1| < |s|
    decreases |s|, 0
  {
    if s == "" then None
    else if s[0] == '"' then
      match ReadChars(s[1..]) case None => None case Some((text, rest)) => Some((Str(text), rest))
    else if s[0] == '[' then
      if |s| > 1 && s[1] == ']' then Some((Arr(NoItems), s[2..]))
      else match ReadItems(s[1..]) case None => None case Some((items, rest)) => Some((Arr(items), rest))
    else if s[0] == '{' then
      if |s| > 1 && s[1] == '}' then Some((Obj(NoFields), s[2..]))
      else match ReadFields(s[1..]) case None => None case Some((fields, rest)) => Some((Obj(fields), rest))
    else if "true" <= s then Some((Bool(true), s[4..]))
    else if "false" <= s then Some((Bool(false), s[5..]))
    else if "null" <= s then Some((Null, s[4..]))
    else if NumberRun(s) > 0 then Some((Num(s[..NumberRun(s)]), s[NumberRun(s)..]))
    else None
  }

  function ReadItems(s: string): (r: Option<(Items, string)>)
    ensures r.Some? ==> |r.value.1| < |s| && r.value.0.Item?
    decreases |s|, 1
  {
    match Read(s)
    case None => None
    case Some((head, rest)) =>
      if rest == "" then None
      else if rest[0] == ']' then Some((Item(head, NoItems), rest[1..]))
      else if rest[0] != ',' then None
      else match ReadItems(rest[1..]) case None => None case Some((tail, after)) => Some((Item(head, tail), after))
  }

  function ReadFields(s: string): (r: Option<(Fields, string)>)
    ensures r.Some? ==> |r.value.1| < |s| && r.value.0.Field?
    decreases |s|, 1
  {
    if s == "" || s[0] != '"' then None
    else match ReadChars(s[1..])
      case None => None
      case Some((name, colon)) =>
        if colon == "" || colon[0] != ':' then None
        else match Read(colon[1..])
          case None => None
          case Some((value, rest)) =>
            if rest == "" then None
            else if rest[0] == '}' then Some((Field(name, value, NoFields), rest[1..]))
            else if rest[0] != ',' then None
            else match ReadFields(rest[1..])
              case None => None
              case Some((more, after)) => Some((Field(name, value, more), after))
  }

  /** A whole text that is one value. */
  function Parse(s: string): Option<Json> {
    match Read(s) case None => None case Some((j, rest)) => if rest == "" then Some(j) else None
  }

  // What is written reads back

  /** Numbers are spelled with the characters of numbers. */
  predicate Spelled(t: string) {
    t != "" && forall i :: 0 <= i < |t| ==> NumberChar(t[i])
  }

  predicate Proper(j: Json)
    decreases j
  {
    match j
    case Num(spelling) => Spelled(spelling)
    case Arr(items) => ProperItems(items)
    case Obj(fields) => ProperFields(fields)
    case _ => true
  }

  predicate ProperItems(items: Items)
    decreases items
  {
    items.Item? ==> Proper(items.head) && ProperItems(items.tail)
  }

  predicate ProperFields(fields: Fields)
    decreases fields
  {
    fields.Field? ==> Proper(fields.value) && ProperFields(fields.more)
  }

  predicate Ends(rest: string) {
    rest == "" || !NumberChar(rest[0])
  }

  lemma Nibbles(n: int)
    requires 0 <= n < 0x1_0000
    ensures n == n / 4096 * 4096 + n / 256 % 16 * 256 + n / 16 % 16 * 16 + n % 16
  {
    var a, b := n / 16, n / 256;
    assert n == a * 16 + n % 16;
    assert a == b * 16 + a % 16 by { assert a / 16 == b; }
    assert b == n / 4096 * 16 + b % 16 by { assert b / 16 == n / 4096; }
  }

  lemma HexReads(n: int)
    requires 0 <= n < 16
    ensures HexValue(LowHex(n)) == Some(n)
  {
  }

  lemma UnitReads(n: int, rest: string)
    requires 0 <= n < 0x1_0000
    ensures (Unit(n) + rest)[0] == '\\' && (Unit(n) + rest)[1] == 'u' && |Unit(n) + rest| == 6 + |rest|
    ensures ReadUnit((Unit(n) + rest)[2..]) == Some(n) && (Unit(n) + rest)[6..] == rest
  {
    Nibbles(n);
    HexReads(n / 4096);
    HexReads(n / 256 % 16);
    HexReads(n / 16 % 16);
    HexReads(n % 16);
    var s := (Unit(n) + rest)[2..];
    assert s[0] == LowHex(n / 4096) && s[1] == LowHex(n / 256 % 16) && s[2] == LowHex(n / 16 % 16) && s[3] == LowHex(n % 16);
  }

  lemma OneUnitReads(n: int, rest: string)
    requires 0 <= n < 0xD800 || 0xE000 <= n < 0x1_0000
    ensures ReadChar(Unit(n) + rest) == Some((n as char, rest))
  {
    var s := Unit(n) + rest;
    UnitReads(n, rest);
    assert s[2..][4..] == s[6..];
  }

  lemma HalvesMeet(n: int)
    requires 0x1_0000 <= n < 0x11_0000
    ensures 0xD800 <= High(n) < 0xDC00 <= Low(n) < 0xE000 && Pair(High(n), Low(n)) == n
  {
  }

  lemma SecondHalf(s: string, high: int, low: int)
    requires |s| >= 10 && ReadUnit(s) == Some(high) && s[4] == '\\' && s[5] == 'u' && ReadUnit(s[6..]) == Some(low)
    requires 0xD800 <= high < 0xDC00 <= low < 0xE000
    ensures ReadEscape(s) == Some((Pair(high, low) as char, s[10..]))
  {
  }

  lemma PairReads(high: int, low: int, rest: string)
    requires 0xD800 <= high < 0xDC00 <= low < 0xE000
    ensures ReadChar(Unit(high) + Unit(low) + rest) == Some((Pair(high, low) as char, rest))
  {
    var after := Unit(low) + rest;
    assert Unit(high) + Unit(low) + rest == Unit(high) + after;
    UnitReads(high, after);
    UnitReads(low, rest);
    var t := (Unit(high) + after)[2..];
    assert t[4..] == after;
    assert t[6..] == after[2..] && t[10..] == after[6..];
    SecondHalf(t, high, low);
  }

  lemma EscapeReads(style: Style, c: char, rest: string)
    ensures ReadChar(Escape(style, c) + rest) == Some((c, rest))
    ensures Escape(style, c) != "" && Escape(style, c)[0] != '"'
  {
    var n := c as int;
    var s := Escape(style, c) + rest;
    if Short(c).Some? {
      assert s[0] == '\\' && s[1] == Short(c).value && s[2..] == rest;
      assert Unshort(Short(c).value) == Some(c);
    } else if Plain(style, c) {
      assert s[0] == c && s[1..] == rest;
    } else if n < 0x1_0000 {
      assert 0 <= n < 0xD800 || 0xE000 <= n;
      OneUnitReads(n, rest);
    } else {
      HalvesMeet(n);
      PairReads(High(n), Low(n), rest);
    }
  }

  predicate Printable(s: string) {
    forall i :: 0 <= i < |s| ==> ' ' <= s[i] <= '~'
  }

  /** The one serialiser writes printable ASCII alone; the other leaves every character as it is
      that is neither a control nor one of the two that must be escaped. */
  lemma EscapesExactly(c: char)
    ensures Printable(Escape(AsciiOnly, c)) && (Escape(AsciiOnly, c) == [c] <==> ' ' <= c <= '~' && c != '"' && c != '\\')
    ensures Escape(AsIs, c) == [c] <==> ' ' <= c && c != '"' && c != '\\'
  {
    if c as int >= 0x1_0000 {
      HalvesMeet(c as int);
    }
  }

  lemma {:induction false} TextIsPrintable(s: string, rest: string)
    requires Printable(rest)
    ensures Printable(PutChars(AsciiOnly, s, rest))
  {
    if s != "" {
      EscapesExactly(s[0]);
      TextIsPrintable(s[1..], rest);
    }
  }

  lemma {:induction false} CharsRead(style: Style, s: string, rest: string)
    ensures ReadChars(PutChars(style, s, rest)) == Some((s, rest))
  {
    var t := PutChars(style, s, rest);
    if s == "" {
      assert t[1..] == rest;
    } else {
      EscapeReads(style, s[0], PutChars(style, s[1..], rest));
      CharsRead(style, s[1..], rest);
      assert [s[0]] + s[1..] == s;
    }
  }

  lemma TextReads(style: Style, s: string, rest: string)
    ensures var t := PutText(style, s, rest); t[0] == '"' && ReadChars(t[1..]) == Some((s, rest))
  {
    CharsRead(style, s, rest);
    assert PutText(style, s, rest)[1..] == PutChars(style, s, rest);
  }

  lemma {:induction false} NumberReads(t: string, rest: string)
    requires (forall i :: 0 <= i < |t| ==> NumberChar(t[i])) && Ends(rest)
    ensures NumberRun(t + rest) == |t|
  {
    if t == "" {
      assert t + rest == rest;
    } else {
      assert (t + rest)[1..] == t[1..] + rest;
      NumberReads(t[1..], rest);
    }
  }

  lemma NumReads(t: string, rest: string)
    requires Spelled(t) && Ends(rest)
    ensures Read(t + rest) == Some((Num(t), rest))
  {
    NumberReads(t, rest);
    var s := t + rest;
    assert s[0] == t[0] && NumberChar(t[0]);
    assert s[..|t|] == t && s[|t|..] == rest;
    assert "true"[0] == 't' && "false"[0] == 'f' && "null"[0] == 'n';
  }

  lemma WordReads(rest: string)
    ensures Read("true" + rest) == Some((Bool(true), rest)) && Read("false" + rest) == Some((Bool(false), rest))
    ensures Read("null" + rest) == Some((Null, rest))
  {
    assert ("true" + rest)[4..] == rest && ("false" + rest)[5..] == rest && ("null" + rest)[4..] == rest;
    assert ("true" + rest)[0] == 't' && ("false" + rest)[0] == 'f' && ("null" + rest)[0] == 'n';
  }

  /** Whatever is written reads back as it was, with what followed it left over. */
  lemma {:induction false} PutReads(style: Style, j: Json, rest: string)
    requires Proper(j) && Ends(rest)
    ensures Read(Put(style, j, rest)) == Some((j, rest))
    decreases j
  {
    var s := Put(style, j, rest);
    match j
    case Str(text) => TextReads(style, text, rest);
    case Num(spelling) => NumReads(spelling, rest);
    case Bool(_) => WordReads(rest);
    case Null => WordReads(rest);
    case Arr(items) =>
      if items.NoItems? {
        assert s[2..] == rest;
      } else {
        ItemsRead(style, items, rest);
        assert s[1..] == PutItems(style, items, rest);
      }
    case Obj(fields) =>
      if fields.NoFields? {
        assert s[2..] == rest;
      } else {
        FieldsRead(style, fields, rest);
        assert s[1..] == PutFields(style, fields, rest);
      }
  }

  lemma {:induction false} ItemsRead(style: Style, items: Items, rest: string)
    requires items.Item? && ProperItems(items)
    ensures ReadItems(PutItems(style, items, rest)) == Some((items, rest))
    ensures PutItems(style, items, rest)[0] != ']'
    decreases items
  {
    if items.tail.NoItems? {
      PutReads(style, items.head, "]" + rest);
      assert ("]" + rest)[1..] == rest;
    } else {
      var more := PutItems(style, items.tail, rest);
      PutReads(style, items.head, "," + more);
      assert ("," + more)[1..] == more;
      ItemsRead(style, items.tail, rest);
    }
  }

  lemma {:induction false} FieldsRead(style: Style, fields: Fields, rest: string)
    requires fields.Field? && ProperFields(fields)
    ensures ReadFields(PutFields(style, fields, rest)) == Some((fields, rest))
    decreases fields
  {
    var after := if fields.more.NoFields? then "}" + rest else "," + PutFields(style, fields.more, rest);
    PutReads(style, fields.value, after);
    assert (":" + Put(style, fields.value, after))[1..] == Put(style, fields.value, after);
    TextReads(style, fields.name, ":" + Put(style, fields.value, after));
    if fields.more.NoFields? {
      assert after[1..] == rest;
    } else {
      assert after[1..] == PutFields(style, fields.more, rest);
      FieldsRead(style, fields.more, rest);
    }
  }

  lemma ParsePrint(style: Style, j: Json)
    requires Proper(j)
    ensures Parse(Print(style, j)) == Some(j)
  {
    PutReads(style, j, "");
  }

  // Objects by name, lists by position

  function Get(fields: Fields, name: string): Option<Json> {
    match fields
    case NoFields => None
    case Field(n, value, more) => if n == name then Some(value) else Get(more, name)
  }

  function At(j: Json, name: string): Option<Json> {
    if j.Obj? then Get(j.fields, name) else None
  }

  function TextAt(j: Json, name: string): Option<string> {
    match At(j, name) case Some(Str(text)) => Some(text) case _ => None
  }

  function IntAt(j: Json, name: string): Option<int> {
    match At(j, name) case Some(Num(spelling)) => ReadInt(spelling) case _ => None
  }

  function BoolAt(j: Json, name: string): Option<bool> {
    match At(j, name) case Some(Bool(truth)) => Some(truth) case _ => None
  }

  function Int(n: int): Json {
    Num(ShowInt(n))
  }

  function Record(names: seq<string>, values: seq<Json>): Fields
    requires |names| == |values|
  {
    if names == [] then NoFields else Field(names[0], values[0], Record(names[1..], values[1..]))
  }

  predicate Distinct(names: seq<string>) {
    forall i, j :: 0 <= i < j < |names| ==> names[i] != names[j]
  }

  lemma {:induction false} RecordGet(names: seq<string>, values: seq<Json>, i: nat)
    requires |names| == |values| && Distinct(names) && i < |names|
    ensures Get(Record(names, values), names[i]) == Some(values[i])
  {
    if i > 0 {
      assert names[1..][i - 1] == names[i];
      RecordGet(names[1..], values[1..], i - 1);
    }
  }

  lemma {:induction false} RecordLacks(names: seq<string>, values: seq<Json>, name: string)
    requires |names| == |values| && name !in names
    ensures Get(Record(names, values), name) == None
  {
    if names != [] {
      RecordLacks(names[1..], values[1..], name);
    }
  }

  lemma {:induction false} RecordProper(names: seq<string>, values: seq<Json>)
    requires |names| == |values| && forall i :: 0 <= i < |values| ==> Proper(values[i])
    ensures ProperFields(Record(names, values))
  {
    if names != [] {
      RecordProper(names[1..], values[1..]);
    }
  }

  function List(values: seq<Json>): Items {
    if values == [] then NoItems else Item(values[0], List(values[1..]))
  }

  function Elements(items: Items): seq<Json> {
    match items case NoItems => [] case Item(head, tail) => [head] + Elements(tail)
  }

  lemma {:induction false} ElementsOfList(values: seq<Json>)
    requires forall i :: 0 <= i < |values| ==> Proper(values[i])
    ensures Elements(List(values)) == values && ProperItems(List(values))
  {
    if values != [] {
      ElementsOfList(values[1..]);
      assert [values[0]] + values[1..] == values;
    }
  }

  lemma IntProper(n: int)
    ensures Proper(Int(n)) && ReadInt(ShowInt(n)) == Some(n)
  {
    IntReads(n);
    var m := if n < 0 then -n else n;
    assert forall i :: 0 <= i < |ShowNat(m)| ==> ShowNat(m)[i] in ShowNat(m);
  }
}
