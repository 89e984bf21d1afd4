/**
 The JSON text of the query-audit header: `JSON.stringify` followed by the escaping of everything a header
 cannot carry (api/src/database/query-audit.ts, asciiJson). Text is a sequence of characters; one beyond
 the basic plane is the surrogate pair UTF-16 gives it, hence two escapes.
 */
module AuditJson {
  import opened Sequences

  predicate IsDigit(c: char) {
    '0' <= c <= '9'
  }

  predicate IsNumeralChar(c: char) {
    IsDigit(c) || c in {'-', '+', '.', 'e', 'E'}
  }

  // A number not written in digits alone: negative, with a fraction or with an exponent.
  predicate IsNumeral(s: string) {
    && s != "" && (s[0] == '-' || IsDigit(s[0]))
    && (forall k :: 0 <= k < |s| ==> IsNumeralChar(s[k]))
    && exists k :: 0 <= k < |s| && !IsDigit(s[k])
  }

  type Numeral = s: string | IsNumeral(s) witness "-"

  datatype Json =
    | Null
    | Bool(b: bool)
    | Num(n: nat)
    | Written(text: Numeral)
    | Str(s: string)
    | Arr(items: seq<Json>)
    | Obj(fields: seq<Field>)

  datatype Field = Field(key: string, value: Json)

  // ---------- printing ----------

  function Hex(d: nat): char
    requires d < 16
  {
    "0123456789abcdef"[d]
  }

  // Four lower-case hexadecimal digits of a UTF-16 unit, after `\u`.
  function UnitEscape(u: nat): (r: string)
    requires u < 0x1_0000
    ensures |r| == 6
  {
    ['\\', 'u', Hex(u / 4096), Hex(u / 256 % 16), Hex(u / 16 % 16), Hex(u % 16)]
  }

  // The escape JSON has a letter for, or none.
  function ShortEscape(c: char): string {
    match c as int
    case 34 => "\\\""
    case 92 => "\\\\"
    case 8 => "\\b"
    case 9 => "\\t"
    case 10 => "\\n"
    case 12 => "\\f"
    case 13 => "\\r"
    case _ => ""
  }

  function HighSurrogate(code: nat): (r: nat)
    requires 0x1_0000 <= code < 0x11_0000
    ensures 0xD800 <= r < 0xDC00
  {
    0xD800 + (code - 0x1_0000) / 0x400
  }

  function LowSurrogate(code: nat): (r: nat)
    requires 0x1_0000 <= code < 0x11_0000
    ensures 0xDC00 <= r < 0xE000
  {
    0xDC00 + (code - 0x1_0000) % 0x400
  }

  function EscapedChar(c: char): string {
    if ShortEscape(c) != "" then ShortEscape(c)
    else if ' ' <= c <= '~' then [c]
    else if c as int < 0x1_0000 then UnitEscape(c as int)
    else UnitEscape(HighSurrogate(c as int)) + UnitEscape(LowSurrogate(c as int))
  }

  // Printable ASCII stands for itself; a quote, a backslash and five controls take two characters, any other code unit
  // six.
  lemma {:induction false} EscapedAsLong(c: char)
    ensures ' ' <= c <= '~' && c != '"' && c != '\\' ==> EscapedChar(c) == [c]
    ensures |EscapedChar(c)|
         == if c as int in {8, 9, 10, 12, 13, 34, 92} then 2
            else if 0x20 <= c as int <= 0x7E then 1
            else if c as int <= 0xFFFF then 6 else 12
  {
  }

  // Each character replaced, as a string's `replace` by pattern does.
  function Replaced(replacement: char -> string, s: string): string {
    if s == "" then "" else replacement(s[0]) + Replaced(replacement, s[1..])
  }

  function Quoted(s: string): string {
    "\"" + Replaced(EscapedChar, s) + "\""
  }

  function Digit(d: nat): char
    requires d < 10
  {
    "0123456789"[d]
  }

  function Digits(n: nat): (r: string)
    ensures |r| > 0
  {
    if n < 10 then [Digit(n)] else Digits(n / 10) + [Digit(n % 10)]
  }

  // The parts with a comma between each two.
  function Joined(parts: seq<string>): string {
    if |parts| == 0 then ""
    else if |parts| == 1 then parts[0]
    else parts[0] + "," + Joined(parts[1..])
  }

  function Print(v: Json): string
    decreases v
  {
    match v
    case Null => "null"
    case Bool(b) => if b then "true" else "false"
    case Num(n) => Digits(n)
    case Written(text) => text
    case Str(s) => Quoted(s)
    case Arr(items) => "[" + Joined(PrintItems(items)) + "]"
    case Obj(fields) => "{" + Joined(PrintFields(fields)) + "}"
  }

  function PrintItems(items: seq<Json>): (r: seq<string>)
    ensures |r| == |items|
    decreases items
  {
    if items == [] then [] else [Print(items[0])] + PrintItems(items[1..])
  }

  function PrintField(f: Field): string
    decreases f
  {
    Quoted(f.key) + ":" + Print(f.value)
  }

  function PrintFields(fields: seq<Field>): (r: seq<string>)
    ensures |r| == |fields|
    decreases fields
  {
    if fields == [] then [] else [PrintField(fields[0])] + PrintFields(fields[1..])
  }

  // ---------- sizes ----------

  function Total(sizes: seq<nat>): nat {
    if sizes == [] then 0 else sizes[0] + Total(sizes[1..])
  }

  function Commas(n: nat): nat {
    if n == 0 then 0 else n - 1
  }

  function Sizes(parts: seq<string>): (r: seq<nat>)
    ensures |r| == |parts|
    ensures forall i :: 0 <= i < |parts| ==> r[i] == |parts[i]|
  {
    seq(|parts|, i requires 0 <= i < |parts| => |parts[i]|)
  }

  // A list is as long as its parts and the commas between them.
  lemma {:induction false} JoinedSize(parts: seq<string>)
    ensures |Joined(parts)| == Total(Sizes(parts)) + Commas(|parts|)
  {
    if |parts| > 0 {
      JoinedSize(parts[1..]);
      assert Sizes(parts)[1..] == Sizes(parts[1..]);
    }
  }

  lemma {:induction false} PrintItemsAt(items: seq<Json>, i: nat)
    requires i < |items|
    ensures PrintItems(items)[i] == Print(items[i])
  {
    if i > 0 {
      PrintItemsAt(items[1..], i - 1);
    }
  }

  lemma {:induction false} PrintFieldsAt(fields: seq<Field>, i: nat)
    requires i < |fields|
    ensures PrintFields(fields)[i] == PrintField(fields[i])
  {
    if i > 0 {
      PrintFieldsAt(fields[1..], i - 1);
    }
  }

  lemma {:induction false} PrintFieldsConcat(a: seq<Field>, b: seq<Field>)
    ensures PrintFields(a + b) == PrintFields(a) + PrintFields(b)
  {
    if a == [] {
      assert a + b == b;
    } else {
      var first, rest := a[0], a[1..];
      PrintFieldsConcat(rest, b);
      assert a == [first] + rest;
      InOneRow([first], rest, b);
      InOneRow([PrintField(first)], PrintFields(rest), PrintFields(b));
    }
  }

  lemma {:induction false} TotalConcat(a: seq<nat>, b: seq<nat>)
    ensures Total(a + b) == Total(a) + Total(b)
  {
    if a == [] {
      assert a + b == b;
    } else {
      TotalConcat(a[1..], b);
      assert (a + b)[1..] == a[1..] + b;
    }
  }

  // One size replaced moves the total by the difference.
  lemma {:induction false} TotalUpdate(sizes: seq<nat>, i: nat, size: nat)
    requires i < |sizes|
    ensures Total(sizes[i := size]) == Total(sizes) + size - sizes[i]
  {
    if i == 0 {
      assert sizes[i := size][1..] == sizes[1..];
    } else {
      TotalUpdate(sizes[1..], i - 1, size);
      assert sizes[i := size][1..] == sizes[1..][i - 1 := size];
    }
  }

  function Pow10(k: nat): nat {
    if k == 0 then 1 else 10 * Pow10(k - 1)
  }

  // A number below 10^k is written in at most k digits, and the longer of two numbers is the larger.
  lemma {:induction false} DigitsBelow(n: nat, k: nat)
    requires k > 0 && n < Pow10(k)
    ensures |Digits(n)| <= k
  {
    if n >= 10 {
      assert Pow10(1) == 10 * Pow10(0);
      DigitsBelow(n / 10, k - 1);
    }
  }

  lemma {:induction false} DigitsMonotone(m: nat, n: nat)
    requires m <= n
    ensures |Digits(m)| <= |Digits(n)|
  {
    if n >= 10 && m >= 10 {
      DigitsMonotone(m / 10, n / 10);
    }
  }

  lemma {:induction false} DigitsSucc(n: nat)
    ensures |Digits(n + 1)| <= |Digits(n)| + 1
  {
    if n >= 10 {
      DigitsSucc(n / 10);
      DigitsMonotone((n + 1) / 10, n / 10 + 1);
    }
  }

  // ---------- what a header can carry ----------

  ghost predicate Printable(s: string) {
    forall i :: 0 <= i < |s| ==> 0x20 <= s[i] as int <= 0x7e
  }

  lemma {:induction false} UnitEscapePrintable(u: nat)
    requires u < 0x1_0000
    ensures Printable(UnitEscape(u))
  {
    forall d: nat | d < 16 ensures 0x20 <= Hex(d) as int <= 0x7e {
      assert Hex(d) in "0123456789abcdef";
    }
  }

  lemma {:induction false} EscapedCharPrintable(c: char)
    ensures Printable(EscapedChar(c))
  {
    if ShortEscape(c) == "" {
      if c as int >= 0x1_0000 {
        UnitEscapePrintable(HighSurrogate(c as int));
        UnitEscapePrintable(LowSurrogate(c as int));
      } else if !(' ' <= c <= '~') {
        UnitEscapePrintable(c as int);
      }
    }
  }

  lemma {:induction false} EscapedPrintable(s: string)
    ensures Printable(Replaced(EscapedChar, s))
  {
    if s != "" {
      EscapedCharPrintable(s[0]);
      EscapedPrintable(s[1..]);
    }
  }

  lemma {:induction false} DigitsPrintable(n: nat)
    ensures Printable(Digits(n))
  {
    if n >= 10 {
      DigitsPrintable(n / 10);
    }
  }

  lemma {:induction false} JoinedPrintable(parts: seq<string>)
    requires forall i :: 0 <= i < |parts| ==> Printable(parts[i])
    ensures Printable(Joined(parts))
  {
    if |parts| > 1 {
      JoinedPrintable(parts[1..]);
    }
  }

  // Whatever the text of a value holds, its JSON is printable ASCII.
  lemma {:induction false} PrintPrintable(v: Json)
    ensures Printable(Print(v))
    decreases v
  {
    match v
    case Null =>
    case Bool(_) =>
    case Num(n) => DigitsPrintable(n);
    case Written(_) =>
    case Str(s) => EscapedPrintable(s);
    case Arr(items) =>
      forall i | 0 <= i < |items| ensures Printable(PrintItems(items)[i]) {
        PrintItemsAt(items, i);
        PrintPrintable(items[i]);
      }
      JoinedPrintable(PrintItems(items));
    case Obj(fields) =>
      forall i | 0 <= i < |fields| ensures Printable(PrintFields(fields)[i]) {
        PrintFieldsAt(fields, i);
        EscapedPrintable(fields[i].key);
        PrintPrintable(fields[i].value);
      }
      JoinedPrintable(PrintFields(fields));
  }
}
