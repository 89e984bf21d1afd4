/**
 Reading the query-audit header back, as `JSON.parse` does: what `asciiJson` (api/src/database/query-audit.ts:1039-1053)
 prints of a value is that value's JSON, every escape included.
 */
module AuditJsonReader {
  import opened Options
  import opened Sequences
  import opened AuditJson

  // ---------- a reader ----------

  function HexValue(c: char): Option<nat> {
    if '0' <= c <= '9' then Some(c as int - '0' as int)
    else if 'a' <= c <= 'f' then Some(c as int - 'a' as int + 10)
    else if 'A' <= c <= 'F' then Some(c as int - 'A' as int + 10)
    else None
  }

  // The unit of a `\uXXXX` at the front.
  function UnitAt(s: string): Option<nat> {
    if |s| < 6 || s[0] != '\\' || s[1] != 'u' then None
    else
      var a, b, c, d := HexValue(s[2]), HexValue(s[3]), HexValue(s[4]), HexValue(s[5]);
      if a.None? || b.None? || c.None? || d.None? then None
      else Some(a.value * 4096 + b.value * 256 + c.value * 16 + d.value)
  }

  function Short(c: char): Option<char> {
    match c
    case '"' => Some('"')
    case '\\' => Some('\\')
    case '/' => Some('/')
    case 'b' => Some(8 as char)
    case 't' => Some('\t')
    case 'n' => Some('\n')
    case 'f' => Some(12 as char)
    case 'r' => Some('\r')
    case _ => None
  }

  // The character at the front of a string's text, and what it takes; a pair of surrogates is one.
  function CharAt(s: string): (r: Option<(char, nat)>)
    requires s != ""
    ensures r.Some? ==> 0 < r.value.1 <= |s|
  {
    if s[0] != '\\' then Some((s[0], 1))
    else if |s| > 1 && Short(s[1]).Some? then Some((Short(s[1]).value, 2))
    else
      var unit := UnitAt(s);
      if unit.None? || unit.value >= 0x1_0000 then None
      else if unit.value < 0xD800 || 0xE000 <= unit.value then Some((unit.value as char, 6))
      else if unit.value >= 0xDC00 then None
      else
        var low := UnitAt(s[6..]);
        if low.None? || low.value < 0xDC00 || 0xE000 <= low.value then None
        else Some(((0x1_0000 + (unit.value - 0xD800) * 0x400 + (low.value - 0xDC00)) as char, 12))
  }

  // From after the opening quote to after the closing one.
  function ReadString(s: string): (r: Option<(string, string)>)
    ensures r.Some? ==> |r.value.1| < |s|
    decreases |s|
  {
    if s == "" then None
    else if s[0] == '"' then Some(("", s[1..]))
    else
      var first := CharAt(s);
      if first.None? then None
      else
        var tail := ReadString(s[first.value.1..]);
        if tail.None? then None else Some(([first.value.0] + tail.value.0, tail.value.1))
  }

  // The whole number written at the front, and what follows it.
  function ReadDigits(s: string, n: nat): (nat, string) {
    if s == "" || !IsDigit(s[0]) then (n, s) else ReadDigits(s[1..], n * 10 + (s[0] as int - '0' as int))
  }

  // How much of the front a number can be written in.
  function NumeralLength(s: string): (r: nat)
    ensures r <= |s| && forall k :: 0 <= k < r ==> IsNumeralChar(s[k])
    ensures r < |s| ==> !IsNumeralChar(s[r])
  {
    if s == "" || !IsNumeralChar(s[0]) then 0 else 1 + NumeralLength(s[1..])
  }

  function ReadNumber(s: string): (r: (Json, string))
    requires s != "" && (s[0] == '-' || IsDigit(s[0]))
    ensures |r.1| < |s|
  {
    var text, rest := s[..NumeralLength(s)], s[NumeralLength(s)..];
    (if IsNumeral(text) then Written(text) else Num(ReadDigits(text, 0).0), rest)
  }

  function ReadValue(s: string): (r: Option<(Json, string)>)
    ensures r.Some? ==> |r.value.1| < |s|
    decreases |s|, 1
  {
    if s == "" then None
    else if "null" <= s then Some((Null, s[4..]))
    else if "true" <= s then Some((Bool(true), s[4..]))
    else if "false" <= s then Some((Bool(false), s[5..]))
    else if s[0] == '-' || IsDigit(s[0]) then Some(ReadNumber(s))
    else if s[0] == '"' then
      var text := ReadString(s[1..]);
      if text.None? then None else Some((Str(text.value.0), text.value.1))
    else if s[0] == '[' then
      if |s| > 1 && s[1] == ']' then Some((Arr([]), s[2..]))
      else
        var items := ReadItems(s[1..]);
        if items.None? then None else Some((Arr(items.value.0), items.value.1))
    else if s[0] == '{' then
      if |s| > 1 && s[1] == '}' then Some((Obj([]), s[2..]))
      else
        var fields := ReadFields(s[1..]);
        if fields.None? then None else Some((Obj(fields.value.0), fields.value.1))
    else None
  }

  // One item at least, to after the closing bracket.
  function ReadItems(s: string): (r: Option<(seq<Json>, string)>)
    ensures r.Some? ==> |r.value.1| < |s|
    decreases |s|, 2
  {
    var first := ReadValue(s);
    if first.None? || first.value.1 == "" then None
    else
      var (item, rest) := first.value;
      if rest[0] == ']' then Some(([item], rest[1..]))
      else if rest[0] != ',' then None
      else
        var more := ReadItems(rest[1..]);
        if more.None? then None else Some(([item] + more.value.0, more.value.1))
  }

  function ReadField(s: string): (r: Option<(Field, string)>)
    ensures r.Some? ==> |r.value.1| < |s|
    decreases |s|, 1
  {
    if s == "" || s[0] != '"' then None
    else
      var key := ReadString(s[1..]);
      if key.None? || key.value.1 == "" || key.value.1[0] != ':' then None
      else
        var value := ReadValue(key.value.1[1..]);
        if value.None? then None else Some((Field(key.value.0, value.value.0), value.value.1))
  }

  function ReadFields(s: string): (r: Option<(seq<Field>, string)>)
    ensures r.Some? ==> |r.value.1| < |s|
    decreases |s|, 2
  {
    var first := ReadField(s);
    if first.None? || first.value.1 == "" then None
    else
      var (field, rest) := first.value;
      if rest[0] == '}' then Some(([field], rest[1..]))
      else if rest[0] != ',' then None
      else
        var more := ReadFields(rest[1..]);
        if more.None? then None else Some(([field] + more.value.0, more.value.1))
  }

  // ---------- it reads what is printed ----------

  lemma {:induction false} HexReads(d: nat)
    requires d < 16
    ensures HexValue(Hex(d)) == Some(d)
  {
  }

  lemma {:induction false} UnitDigits(u: nat)
    requires u < 0x1_0000
    ensures u / 4096 < 16
    ensures u / 4096 * 4096 + u / 256 % 16 * 256 + u / 16 % 16 * 16 + u % 16 == u
  {
    var q := u / 16;
    assert u == q * 16 + u % 16;
    assert u / 256 == q / 16 && q == u / 256 * 16 + q % 16;
    assert u / 4096 == u / 256 / 16 && u / 256 == u / 4096 * 16 + u / 256 % 16;
  }

  lemma {:induction false} UnitReads(u: nat, rest: string)
    requires u < 0x1_0000
    ensures UnitAt(UnitEscape(u) + rest) == Some(u)
  {
    UnitDigits(u);
    var a, b, c, d := u / 4096, u / 256 % 16, u / 16 % 16, u % 16;
    UnitOf(u, a, b, c, d, UnitEscape(u), rest);
  }

  lemma {:induction false} UnitOf(u: nat, a: nat, b: nat, c: nat, d: nat, escape: string, rest: string)
    requires a < 16 && b < 16 && c < 16 && d < 16 && a * 4096 + b * 256 + c * 16 + d == u
    requires escape == ['\\', 'u', Hex(a), Hex(b), Hex(c), Hex(d)]
    ensures UnitAt(escape + rest) == Some(u)
  {
    FourHexRead(a, b, c, d, escape, rest);
  }

  lemma {:induction false} FourHexRead(a: nat, b: nat, c: nat, d: nat, escape: string, rest: string)
    requires a < 16 && b < 16 && c < 16 && d < 16
    requires escape == ['\\', 'u', Hex(a), Hex(b), Hex(c), Hex(d)]
    ensures UnitAt(escape + rest) == Some(a * 4096 + b * 256 + c * 16 + d)
  {
    HexReads(a);
    HexReads(b);
    HexReads(c);
    HexReads(d);
    var s := escape + rest;
    assert s[2] == Hex(a) && s[3] == Hex(b) && s[4] == Hex(c) && s[5] == Hex(d);
  }

  lemma {:induction false} SurrogatesReads(code: nat, rest: string)
    requires 0x1_0000 <= code < 0x11_0000
    ensures CharAt(UnitEscape(HighSurrogate(code)) + UnitEscape(LowSurrogate(code)) + rest) == Some((code as char, 12))
  {
    var h, l := HighSurrogate(code), LowSurrogate(code);
    assert 0x1_0000 + (h - 0xD800) * 0x400 + (l - 0xDC00) == code;
    PairReads(h, l, UnitEscape(h), UnitEscape(l), rest);
  }

  lemma {:induction false} PairAt(s: string, h: nat, l: nat)
    requires |s| >= 12 && s[0] == '\\' && Short(s[1]).None? && UnitAt(s) == Some(h) && UnitAt(s[6..]) == Some(l)
    requires 0xD800 <= h < 0xDC00 <= l < 0xE000
    ensures CharAt(s) == Some(((0x1_0000 + (h - 0xD800) * 0x400 + (l - 0xDC00)) as char, 12))
  {
  }

  lemma {:induction false} PairReads(h: nat, l: nat, high: string, low: string, rest: string)
    requires 0xD800 <= h < 0xDC00 <= l < 0xE000 && high == UnitEscape(h) && low == UnitEscape(l)
    ensures CharAt(high + low + rest) == Some(((0x1_0000 + (h - 0xD800) * 0x400 + (l - 0xDC00)) as char, 12))
  {
    var s := high + low + rest;
    InOneRow(high, low, rest);
    assert s[6..] == low + rest;
    UnitReads(h, low + rest);
    UnitReads(l, rest);
    assert s[0] == '\\' && s[1] == 'u' && Short('u').None?;
    PairAt(s, h, l);
  }

  lemma {:induction false} CharReads(c: char, rest: string)
    ensures EscapedChar(c) != "" && EscapedChar(c)[0] != '"'
    ensures CharAt(EscapedChar(c) + rest) == Some((c, |EscapedChar(c)|))
  {
    if ShortEscape(c) != "" {
    } else if ' ' <= c <= '~' {
    } else if c as int < 0x1_0000 {
      UnitReads(c as int, rest);
      assert Short('u').None?;
    } else {
      SurrogatesReads(c as int, rest);
    }
  }

  lemma {:induction false} StringReads(s: string, rest: string)
    ensures ReadString(Replaced(EscapedChar, s) + (['"'] + rest)) == Some((s, rest))
  {
    if s == "" {
      assert Replaced(EscapedChar, s) + (['"'] + rest) == ['"'] + rest;
      assert (['"'] + rest)[1..] == rest;
    } else {
      var first, tail := EscapedChar(s[0]), Replaced(EscapedChar, s[1..]);
      StringReads(s[1..], rest);
      InOneRow(first, tail, ['"'] + rest);
      CharReads(s[0], tail + (['"'] + rest));
      assert (first + (tail + (['"'] + rest)))[|first|..] == tail + (['"'] + rest);
      assert [s[0]] + s[1..] == s;
    }
  }

  lemma {:induction false} DigitsRead(n: nat, rest: string)
    ensures ReadDigits(Digits(n) + rest, 0) == ReadDigits(rest, n)
    ensures forall k :: 0 <= k < |Digits(n)| ==> IsDigit(Digits(n)[k])
  {
    if n < 10 {
      assert (Digits(n) + rest)[1..] == rest;
    } else {
      var last := [Digit(n % 10)];
      DigitsRead(n / 10, last + rest);
      InOneRow(Digits(n / 10), last, rest);
      assert (last + rest)[1..] == rest;
    }
  }

  // A number ends where nothing follows that could be part of it.
  ghost predicate EndsNumber(rest: string) {
    rest == "" || !IsNumeralChar(rest[0])
  }

  lemma {:induction false} NumeralReads(text: string, rest: string)
    requires EndsNumber(rest) && forall k :: 0 <= k < |text| ==> IsNumeralChar(text[k])
    ensures var n := NumeralLength(text + rest); (text + rest)[..n] == text && (text + rest)[n..] == rest
  {
    var s := text + rest;
    assert forall k :: 0 <= k < |text| ==> s[k] == text[k];
    assert rest != "" ==> s[|text|] == rest[0];
  }

  lemma {:induction false} NumberReads(n: nat, rest: string)
    requires EndsNumber(rest)
    ensures ReadValue(Digits(n) + rest) == Some((Num(n), rest))
  {
    var text := Digits(n);
    DigitsRead(n, "");
    assert text + "" == text;
    NumeralReads(text, rest);
    assert (text + rest)[0] == text[0] && !IsNumeral(text);
  }

  lemma {:induction false} WrittenReads(text: Numeral, rest: string)
    requires EndsNumber(rest)
    ensures ReadValue(text + rest) == Some((Written(text), rest))
  {
    NumeralReads(text, rest);
    assert (text + rest)[0] == text[0];
  }

  lemma {:induction false} ArrayFollows(s: string, tail: string, items: seq<Json>, rest: string)
    requires s == ['['] + tail && tail != "" && tail[0] != ']' && ReadItems(tail) == Some((items, rest))
    ensures ReadValue(s) == Some((Arr(items), rest))
  {
    assert s[0] == '[' && s[1..] == tail;
  }

  lemma {:induction false} RecordFollows(s: string, tail: string, fields: seq<Field>, rest: string)
    requires s == ['{'] + tail && tail != "" && tail[0] != '}' && ReadFields(tail) == Some((fields, rest))
    ensures ReadValue(s) == Some((Obj(fields), rest))
  {
    assert s[0] == '{' && s[1..] == tail;
  }

  lemma {:induction false} TextFollows(s: string, tail: string, text: string, rest: string)
    requires s == ['"'] + tail && ReadString(tail) == Some((text, rest))
    ensures ReadValue(s) == Some((Str(text), rest))
  {
    assert s[0] == '"' && s[1..] == tail;
  }

  lemma {:induction false} EmptyFollows(s: string, opening: char, closing: char, rest: string)
    requires s == [opening] + ([closing] + rest)
    ensures |s| > 1 && s[0] == opening && s[1] == closing && s[2..] == rest
  {
  }

  lemma {:induction false} LastItemFollows(s: string, item: Json, rest: string)
    requires ReadValue(s) == Some((item, [']'] + rest))
    ensures ReadItems(s) == Some(([item], rest))
  {
    assert ([']'] + rest)[1..] == rest;
  }

  lemma {:induction false} ItemFollows(s: string, item: Json, tail: string, items: seq<Json>, rest: string)
    requires ReadValue(s) == Some((item, [','] + tail)) && ReadItems(tail) == Some((items, rest))
    ensures ReadItems(s) == Some(([item] + items, rest))
  {
    assert ([','] + tail)[1..] == tail;
  }

  lemma {:induction false} LastFieldFollows(s: string, field: Field, rest: string)
    requires ReadField(s) == Some((field, ['}'] + rest))
    ensures ReadFields(s) == Some(([field], rest))
  {
    assert (['}'] + rest)[1..] == rest;
  }

  lemma {:induction false} FieldFollows(s: string, field: Field, tail: string, fields: seq<Field>, rest: string)
    requires ReadField(s) == Some((field, [','] + tail)) && ReadFields(tail) == Some((fields, rest))
    ensures ReadFields(s) == Some(([field] + fields, rest))
  {
    assert ([','] + tail)[1..] == tail;
  }

  lemma {:induction false} ValueFollows(s: string, tail: string, key: string, value: string, v: Json, rest: string)
    requires s == ['"'] + tail && ReadString(tail) == Some((key, [':'] + value)) && ReadValue(value) == Some((v, rest))
    ensures ReadField(s) == Some((Field(key, v), rest))
  {
    assert s[1..] == tail && ([':'] + value)[1..] == value;
  }

  // Where a printed text stands in what follows it.
  lemma {:induction false} QuotedOpens(text: string, rest: string)
    ensures Quoted(text) + rest == ['"'] + (Replaced(EscapedChar, text) + (['"'] + rest))
  {
    assert "\"" == ['"'];
    var body := Replaced(EscapedChar, text);
    InOneRow(['"'] + body, ['"'], rest);
    InOneRow(['"'], body, ['"'] + rest);
  }

  lemma {:induction false} TextReads(text: string, rest: string)
    ensures ReadValue(Quoted(text) + rest) == Some((Str(text), rest))
    ensures Quoted(text) != "" && Quoted(text)[0] == '"'
  {
    QuotedOpens(text, rest);
    StringReads(text, rest);
    TextFollows(Quoted(text) + rest, Replaced(EscapedChar, text) + (['"'] + rest), text, rest);
    assert (Quoted(text) + rest)[0] == Quoted(text)[0];
  }

  lemma {:induction false} FieldReads(f: Field, rest: string)
    requires ReadValue(Print(f.value) + rest) == Some((f.value, rest))
    ensures ReadField(PrintField(f) + rest) == Some((f, rest))
    ensures PrintField(f) != "" && PrintField(f)[0] == '"'
  {
    var key, value := Quoted(f.key), Print(f.value) + rest;
    assert ":" == [':'];
    InOneRow(key + [':'], Print(f.value), rest);
    InOneRow(key, [':'], value);
    QuotedOpens(f.key, [':'] + value);
    StringReads(f.key, [':'] + value);
    ValueFollows(PrintField(f) + rest, Replaced(EscapedChar, f.key) + (['"'] + ([':'] + value)), f.key, value, f.value,
                 rest);
  }

  lemma {:induction false} JoinedHead(first: string, rest: seq<string>, end: string)
    requires rest != []
    ensures Joined([first] + rest) + end == first + ([','] + (Joined(rest) + end))
  {
    assert ([first] + rest)[1..] == rest && "," == [','];
    InOneRow(first + [','], Joined(rest), end);
    InOneRow(first, [','], Joined(rest) + end);
  }

  /**
   The header reads back: whatever value is printed, the reader gives that value again, its keys in order, and stops
   where it ends.
   */
  lemma {:induction false} ValueReads(v: Json, rest: string)
    requires EndsNumber(rest)
    ensures ReadValue(Print(v) + rest) == Some((v, rest))
    ensures Print(v) != "" && Print(v)[0] != ']'
    decreases v, 1
  {
    match v
    case Null => WordReads("null", rest);
    case Bool(b) => WordReads(if b then "true" else "false", rest);
    case Num(n) =>
      DigitsRead(n, "");
      NumberReads(n, rest);
    case Written(text) => WrittenReads(text, rest);
    case Str(s) => TextReads(s, rest);
    case Arr(items) =>
      if items != [] {
        ItemsRead(items, rest);
      }
      ArrayReads(items, rest);
    case Obj(fields) =>
      if fields != [] {
        FieldsRead(fields, rest);
      }
      RecordReads(fields, rest);
  }

  lemma {:induction false} WordReads(word: string, rest: string)
    requires word == "null" || word == "true" || word == "false"
    ensures ReadValue(word + rest) == Some((if word == "null" then Null else Bool(word == "true"), rest))
  {
    var s := word + rest;
    assert s[..|word|] == word && s[|word|..] == rest && s[0] == word[0];
    assert "null" <= s ==> s[0] == 'n';
    assert "true" <= s ==> s[0] == 't';
  }

  lemma {:induction false} ArrayReads(items: seq<Json>, rest: string)
    requires items != [] ==>
               var tail := Joined(PrintItems(items)) + ([']'] + rest);
               ReadItems(tail) == Some((items, rest)) && tail != "" && tail[0] != ']'
    ensures ReadValue(Print(Arr(items)) + rest) == Some((Arr(items), rest))
  {
    var s, joined := Print(Arr(items)) + rest, Joined(PrintItems(items));
    assert "[" == ['['] && "]" == [']'];
    InOneRow(['['] + joined, [']'], rest);
    InOneRow(['['], joined, [']'] + rest);
    if items == [] {
      EmptyFollows(s, '[', ']', rest);
    } else {
      ArrayFollows(s, joined + ([']'] + rest), items, rest);
    }
  }

  lemma {:induction false} RecordReads(fields: seq<Field>, rest: string)
    requires fields != [] ==>
               var tail := Joined(PrintFields(fields)) + (['}'] + rest);
               ReadFields(tail) == Some((fields, rest)) && tail != "" && tail[0] != '}'
    ensures ReadValue(Print(Obj(fields)) + rest) == Some((Obj(fields), rest))
  {
    var s, joined := Print(Obj(fields)) + rest, Joined(PrintFields(fields));
    assert "{" == ['{'] && "}" == ['}'];
    InOneRow(['{'] + joined, ['}'], rest);
    InOneRow(['{'], joined, ['}'] + rest);
    if fields == [] {
      EmptyFollows(s, '{', '}', rest);
    } else {
      RecordFollows(s, joined + (['}'] + rest), fields, rest);
    }
  }

  lemma {:induction false} ItemsRead(items: seq<Json>, rest: string)
    requires items != []
    ensures var tail := Joined(PrintItems(items)) + ([']'] + rest);
            ReadItems(tail) == Some((items, rest)) && tail != "" && tail[0] != ']'
    decreases items, 0
  {
    var v, end := items[0], [']'] + rest;
    if |items| == 1 {
      assert items == [v] && PrintItems(items) == [Print(v)];
      ValueReads(v, end);
      LastItemFollows(Print(v) + end, v, rest);
    } else {
      var more := Joined(PrintItems(items[1..])) + end;
      ItemsRead(items[1..], rest);
      ValueReads(v, [','] + more);
      ItemFollows(Print(v) + ([','] + more), v, more, items[1..], rest);
      JoinedHead(Print(v), PrintItems(items[1..]), end);
      assert items == [v] + items[1..];
    }
  }

  lemma {:induction false} FieldsRead(fields: seq<Field>, rest: string)
    requires fields != []
    ensures var tail := Joined(PrintFields(fields)) + (['}'] + rest);
            ReadFields(tail) == Some((fields, rest)) && tail != "" && tail[0] != '}'
    decreases fields, 0
  {
    var f, end := fields[0], ['}'] + rest;
    if |fields| == 1 {
      assert fields == [f] && PrintFields(fields) == [PrintField(f)];
      ValueReads(f.value, end);
      FieldReads(f, end);
      LastFieldFollows(PrintField(f) + end, f, rest);
    } else {
      var more := Joined(PrintFields(fields[1..])) + end;
      FieldsRead(fields[1..], rest);
      ValueReads(f.value, [','] + more);
      FieldReads(f, [','] + more);
      FieldFollows(PrintField(f) + ([','] + more), f, more, fields[1..], rest);
      JoinedHead(PrintField(f), PrintFields(fields[1..]), end);
      assert fields == [f] + fields[1..];
    }
  }

  // Two values that print alike are the same value.
  lemma {:induction false} PrintTellsValuesApart(v: Json, w: Json)
    requires Print(v) == Print(w)
    ensures v == w
  {
    ValueReads(v, "");
    ValueReads(w, "");
  }
}
