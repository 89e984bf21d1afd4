/**
 Wrapping an over-length title in a `oneLine` template, and reading it back (eslint-rules/string-literals-max-len.js:
 100-152). Characters are code points; a JavaScript length counts two units for those past U+FFFF.
 */
module WordWrap {
  import opened Sequences

  // JavaScript's `\s`.
  predicate IsSpace(c: char) {
    || c in {'\t', '\n', '\r', ' '}
    || c as int in {0x0B, 0x0C, 0xA0, 0x1680, 0x2028, 0x2029, 0x202F, 0x205F, 0x3000, 0xFEFF}
    || 0x2000 <= c as int <= 0x200A
  }

  predicate Blank(s: string) {
    forall k :: 0 <= k < |s| ==> IsSpace(s[k])
  }

  // A word: something, and no white space in it.
  predicate IsWord(s: string) {
    s != "" && forall k :: 0 <= k < |s| ==> !IsSpace(s[k])
  }

  predicate AreWords(words: seq<string>) {
    forall k :: 0 <= k < |words| ==> IsWord(words[k])
  }

  function Join(words: seq<string>): string {
    if words == [] then ""
    else if |words| == 1 then words[0]
    else Join(words[..|words| - 1]) + [' '] + words[|words| - 1]
  }

  // Words one space apart, and nothing else.
  ghost predicate SingleSpaced(text: string) {
    exists words :: AreWords(words) && text == Join(words)
  }

  // ---------- escaping ----------

  // A global replace of one character by itself behind a backslash.
  function EscapeEach(c: char, s: string): string {
    if s == "" then "" else (if s[0] == c then ['\\', c] else [s[0]]) + EscapeEach(c, s[1..])
  }

  // And of `${`.
  function EscapeOpening(s: string): string
    decreases |s|
  {
    if s == "" then ""
    else if s[0] == '$' && |s| > 1 && s[1] == '{' then ['\\', '$', '{'] + EscapeOpening(s[2..])
    else [s[0]] + EscapeOpening(s[1..])
  }

  function Escaped(text: string): string {
    EscapeOpening(EscapeEach('`', EscapeEach('\\', text)))
  }

  // What the template evaluates to, as far as these escapes go.
  function Cook(raw: string): string {
    if raw == "" then ""
    else if raw[0] == '\\' && |raw| > 1 && raw[1] in {'\\', '`', '$'} then [raw[1]] + Cook(raw[2..])
    else [raw[0]] + Cook(raw[1..])
  }

  // The template neither ends nor opens a substitution within.
  predicate IsWhole(raw: string) {
    if raw == "" then true
    else if raw[0] == '\\' then |raw| > 1 && IsWhole(raw[2..])
    else raw[0] != '`' && !(raw[0] == '$' && |raw| > 1 && raw[1] == '{') && IsWhole(raw[1..])
  }

  // What the three replaces make of the first character.
  function Piece(s: string): string
    requires s != ""
  {
    if Ends(s[0]) || (s[0] == '$' && |s| > 1 && s[1] == '{') then ['\\', s[0]] else [s[0]]
  }

  // The three replaces in one pass.
  function EscapedOnce(s: string): string {
    if s == "" then "" else Piece(s) + EscapedOnce(s[1..])
  }

  predicate Ends(c: char) {
    c == '\\' || c == '`'
  }

  // The first two of them in one pass.
  function EscapedEnds(s: string): string {
    if s == "" then "" else (if Ends(s[0]) then ['\\', s[0]] else [s[0]]) + EscapedEnds(s[1..])
  }

  lemma {:induction false} TwoPasses(s: string)
    ensures EscapeEach('`', EscapeEach('\\', s)) == EscapedEnds(s)
  {
    if s != "" {
      var c, slashed := s[0], EscapeEach('\\', s[1..]);
      TwoPasses(s[1..]);
      if c == '\\' {
        assert [c, c] + slashed == [c] + ([c] + slashed);
      } else {
      }
    }
  }

  lemma {:induction false} EscapeOpeningHead(c: char, tail: string)
    requires c != '$' || tail == "" || tail[0] != '{'
    ensures EscapeOpening([c] + tail) == [c] + EscapeOpening(tail)
  {
    assert ([c] + tail)[1..] == tail;
  }

  lemma {:induction false} ThirdPass(s: string)
    ensures EscapeOpening(EscapedEnds(s)) == EscapedOnce(s)
    decreases |s|
  {
    if s != "" {
      var c, tail := s[0], EscapedEnds(s[1..]);
      ThirdPass(s[1..]);
      if Ends(c) {
        EscapeOpeningHead('\\', [c] + tail);
        EscapeOpeningHead(c, tail);
        assert ['\\', c] + tail == ['\\'] + ([c] + tail);
      } else if c == '$' && |s| > 1 && s[1] == '{' {
        ThirdPass(s[2..]);
        assert s[1..][1..] == s[2..];
        assert [c] + tail == ['$', '{'] + EscapedEnds(s[2..]);
      } else {
        EscapeOpeningHead(c, tail);
      }
    }
  }

  lemma {:induction false} OnePass(s: string)
    ensures Escaped(s) == EscapedOnce(s)
  {
    TwoPasses(s);
    ThirdPass(s);
  }

  // Escaping a text escapes its words.
  lemma {:induction false} EscapedOnceConcat(a: string, b: string)
    requires b == "" || b[0] != '{'
    ensures EscapedOnce(a + b) == EscapedOnce(a) + EscapedOnce(b)
  {
    if a == "" {
      assert a + b == b;
    } else {
      var rest := a[1..];
      EscapedOnceConcat(rest, b);
      assert (a + b)[1..] == rest + b;
      assert Piece(a + b) == Piece(a);
      InOneRow(Piece(a), EscapedOnce(rest), EscapedOnce(b));
    }
  }

  lemma {:induction false} CookPiece(s: string, tail: string)
    requires s != ""
    ensures Cook(Piece(s) + tail) == [s[0]] + Cook(tail)
  {
    assert (Piece(s) + tail)[|Piece(s)|..] == tail;
  }

  lemma {:induction false} CookUndoesEscape(s: string, rest: string)
    ensures Cook(EscapedOnce(s) + rest) == s + Cook(rest)
  {
    if s == "" {
      assert EscapedOnce(s) + rest == rest;
    } else {
      var piece, escaped, tail := Piece(s), EscapedOnce(s[1..]), s[1..];
      CookUndoesEscape(tail, rest);
      CookPiece(s, escaped + rest);
      InOneRow(piece, escaped, rest);
      InOneRow([s[0]], tail, Cook(rest));
      assert s == [s[0]] + tail;
    }
  }

  lemma {:induction false} PieceIsWhole(s: string, tail: string)
    requires s != "" && IsWhole(tail) && (|s| == 1 ==> tail == "" || tail[0] != '{')
    requires |s| > 1 && tail != "" && tail[0] == '{' ==> s[1] == '{'
    ensures IsWhole(Piece(s) + tail)
  {
    assert (Piece(s) + tail)[|Piece(s)|..] == tail;
  }

  lemma {:induction false} OpensAsBefore(s: string, rest: string)
    requires rest == "" || rest[0] != '{'
    ensures EscapedOnce(s) + rest != "" && (EscapedOnce(s) + rest)[0] == '{' ==> s != "" && s[0] == '{'
  {
    if s != "" {
      assert (EscapedOnce(s) + rest)[0] == Piece(s)[0];
    }
  }

  // An escaped text neither ends its template nor opens a substitution, unless what follows completes one.
  lemma {:induction false} EscapedIsWhole(s: string, rest: string)
    requires IsWhole(rest) && (rest == "" || rest[0] != '{')
    ensures IsWhole(EscapedOnce(s) + rest)
  {
    if s == "" {
      assert EscapedOnce(s) + rest == rest;
    } else {
      var tail := EscapedOnce(s[1..]) + rest;
      EscapedIsWhole(s[1..], rest);
      OpensAsBefore(s[1..], rest);
      PieceIsWhole(s, tail);
      InOneRow(Piece(s), EscapedOnce(s[1..]), rest);
    }
  }

  // ---------- words and their lines ----------

  function SplitSpaces(s: string): (r: seq<string>)
    ensures r != []
  {
    if s == "" then [""]
    else
      var rest := SplitSpaces(s[1..]);
      if s[0] == ' ' then [""] + rest else [[s[0]] + rest[0]] + rest[1..]
  }

  predicate NoSpace(s: string) {
    forall k :: 0 <= k < |s| ==> s[k] != ' '
  }

  lemma {:induction false} SplitPlain(s: string, rest: string)
    requires NoSpace(s)
    ensures SplitSpaces(s) == [s]
    ensures SplitSpaces(s + ([' '] + rest)) == [s] + SplitSpaces(rest)
  {
    if s == "" {
      assert s + ([' '] + rest) == [' '] + rest && ([' '] + rest)[1..] == rest;
    } else {
      SplitPlain(s[1..], rest);
      assert (s + ([' '] + rest))[1..] == s[1..] + ([' '] + rest);
      assert [s[0]] + s[1..] == s;
    }
  }

  // Joined from the front.
  lemma {:induction false} JoinFront(words: seq<string>)
    requires |words| > 1
    ensures Join(words) == words[0] + ([' '] + Join(words[1..]))
  {
    if |words| > 2 {
      var init := words[..|words| - 1];
      JoinFront(init);
      assert init[1..] == words[1..][..|words| - 2];
      var last := [' '] + words[|words| - 1];
      assert words[0] + ([' '] + Join(init[1..])) + last == words[0] + ([' '] + (Join(init[1..]) + last));
      assert Join(words[1..]) == Join(init[1..]) + [' '] + words[|words| - 1];
    } else {
      assert words[..1] == [words[0]] && words[1..] == [words[1]];
    }
  }

  lemma {:induction false} SplitJoined(words: seq<string>)
    requires words != [] && forall k :: 0 <= k < |words| ==> NoSpace(words[k])
    ensures SplitSpaces(Join(words)) == words
  {
    if |words| == 1 {
      SplitPlain(words[0], "");
    } else {
      JoinFront(words);
      SplitPlain(words[0], Join(words[1..]));
      SplitJoined(words[1..]);
    }
  }

  lemma {:induction false} JoinConcat(a: seq<string>, b: seq<string>)
    requires a != [] && b != []
    ensures Join(a + b) == Join(a) + [' '] + Join(b)
  {
    if |b| == 1 {
      assert (a + b)[..|a|] == a;
    } else {
      JoinConcat(a, b[..|b| - 1]);
      assert (a + b)[..|a + b| - 1] == a + b[..|b| - 1];
    }
  }

  function EscapedWords(words: seq<string>): (r: seq<string>)
    ensures |r| == |words| && forall k :: 0 <= k < |words| ==> r[k] == EscapedOnce(words[k])
  {
    if words == [] then [] else EscapedWords(words[..|words| - 1]) + [EscapedOnce(words[|words| - 1])]
  }

  // Escaping commutes with joining: a space never takes part in an escape.
  lemma {:induction false} EscapedJoin(words: seq<string>)
    ensures EscapedOnce(Join(words)) == Join(EscapedWords(words))
  {
    if |words| > 1 {
      var init, last := words[..|words| - 1], words[|words| - 1];
      EscapedJoin(init);
      EscapedOnceConcat(Join(init), [' '] + last);
      InOneRow(Join(init), [' '], last);
      InOneRow(EscapedOnce(Join(init)), [' '], EscapedOnce(last));
      assert ([' '] + last)[1..] == last;
      assert EscapedWords(words)[..|words| - 1] == EscapedWords(init);
    } else if |words| == 1 {
      assert words[..0] == [];
    }
  }

  // A JavaScript length.
  function Length(s: string): nat {
    if s == "" then 0 else Length(s[..|s| - 1]) + if s[|s| - 1] as int > 0xFFFF then 2 else 1
  }

  // It counts the characters, and those past the Basic Multilingual Plane twice.
  lemma {:induction false} LengthCounts(s: string)
    ensures Length(s) == |s| + |set i | 0 <= i < |s| && s[i] as int >= 0x1_0000|
  {
    if s != "" {
      var init, last := s[..|s| - 1], |s| - 1;
      LengthCounts(init);
      var wide := set i | 0 <= i < |init| && init[i] as int >= 0x1_0000;
      assert (set i | 0 <= i < |s| && s[i] as int >= 0x1_0000)
          == wide + if s[last] as int >= 0x1_0000 then {last} else {};
    }
  }

  lemma {:induction false} LengthConcat(a: string, b: string)
    ensures Length(a + b) == Length(a) + Length(b)
  {
    if b == "" {
      assert a + b == a;
    } else {
      LengthConcat(a, b[..|b| - 1]);
      assert (a + b)[..|a + b| - 1] == a + b[..|b| - 1];
    }
  }

  // The words packed so far: the full lines, and the one being filled.
  function Pack(words: seq<string>, budget: int): (seq<string>, string) {
    if words == [] then ([], "")
    else
      var (lines, current) := Pack(words[..|words| - 1], budget);
      var word := words[|words| - 1];
      if current == "" then (lines, word)
      else if Length(current) + 1 + Length(word) <= budget then (lines, current + [' '] + word)
      else (lines + [current], word)
  }

  function Lines(words: seq<string>, budget: int): seq<string> {
    var (lines, current) := Pack(words, budget);
    if current == "" then lines else lines + [current]
  }

  // The lines under their indentation, one a source line.
  function Body(lines: seq<string>, indent: string): string {
    if lines == [] then ""
    else (if |lines| == 1 then "" else Body(lines[..|lines| - 1], indent) + ['\n']) + indent + lines[|lines| - 1]
  }

  // The template's text, between its backticks.
  function Inner(lines: seq<string>, baseIndent: string, indentUnit: string): string {
    ['\n'] + Body(lines, baseIndent + indentUnit) + ['\n'] + baseIndent
  }

  // Columns a source text takes.
  function Columns(text: string, tabWidth: nat): nat {
    if text == "" then 0 else Columns(text[..|text| - 1], tabWidth) + if text[|text| - 1] == '\t' then tabWidth else 1
  }

  method VisualWidth(text: string, tabWidth: nat) returns (width: nat)
    ensures width == Columns(text, tabWidth)
  {
    width := 0;
    for k := 0 to |text|
      invariant width == Columns(text[..k], tabWidth)
    {
      assert text[..k + 1][..k] == text[..k];
      width := width + if text[k] == '\t' then tabWidth else 1;
    }
    assert text[..|text|] == text;
  }

  method WrapStringLiteral(text: string, baseIndent: string, indentUnit: string, tag: string, code: nat, tabWidth: nat)
    returns (wrapped: string)
    ensures var budget := code - Columns(baseIndent + indentUnit, tabWidth);
            wrapped == tag + ['`'] + Inner(Lines(SplitSpaces(Escaped(text)), budget), baseIndent, indentUnit) + ['`']
  {
    var escaped := Escaped(text);
    var taken := VisualWidth(baseIndent + indentUnit, tabWidth);
    var budget := code - taken;
    var lines: seq<string>, current := [], "";
    var words := SplitSpaces(escaped);
    for k := 0 to |words|
      invariant (lines, current) == Pack(words[..k], budget)
    {
      var word := words[k];
      assert words[..k + 1][..k] == words[..k];
      if current == "" {
        current := word;
      } else if Length(current) + 1 + Length(word) <= budget {
        current := current + [' '] + word;
      } else {
        lines := lines + [current];
        current := word;
      }
    }
    assert words[..|words|] == words;
    if current != "" {
      lines := lines + [current];
    }
    wrapped := tag + ['`'] + Inner(lines, baseIndent, indentUnit) + ['`'];
  }

  // ---------- lines as spans of the words ----------

  datatype Span = Span(from: nat, to: nat)

  function Last(spans: seq<Span>): nat {
    if spans == [] then 0 else spans[|spans| - 1].to
  }

  // One after the other, from the first word on, none empty.
  predicate Chained(spans: seq<Span>) {
    spans == []
    || var init, last := spans[..|spans| - 1], spans[|spans| - 1];
       Chained(init) && last.from == Last(init) && last.from < last.to
  }

  function Line(words: seq<string>, s: Span): string
    requires s.from <= s.to <= |words|
  {
    Join(words[s.from..s.to])
  }

  // A line of more than one word is within the budget.
  predicate Fits(words: seq<string>, s: Span, budget: int) {
    s.from < s.to <= |words| && (s.to - s.from > 1 ==> Length(Line(words, s)) <= budget)
  }

  // One more word would not be, but for the last line.
  predicate IsFull(words: seq<string>, s: Span, budget: int) {
    s.from < s.to < |words| ==> Length(Join(words[s.from..s.to + 1])) > budget
  }

  ghost predicate Laid(words: seq<string>, budget: int, lines: seq<string>, spans: seq<Span>) {
    && Chained(spans) && |lines| == |spans|
    && forall k :: 0 <= k < |spans| ==>
                     && Fits(words, spans[k], budget) && IsFull(words, spans[k], budget)
                     && lines[k] == Line(words, spans[k])
  }

  ghost predicate NonEmpty(words: seq<string>) {
    forall k :: 0 <= k < |words| ==> words[k] != ""
  }

  // The full lines of a packing, and the words of the line being filled.
  ghost predicate Packed(words: seq<string>, budget: int, lines: seq<string>, current: string, spans: seq<Span>) {
    && Laid(words, budget, lines, spans) && Last(spans) <= |words|
    && (words != [] ==> Last(spans) < |words|)
    && current == Join(words[Last(spans)..])
    && (|words| - Last(spans) > 1 ==> Length(current) <= budget)
  }

  lemma {:induction false} LengthMore(words: seq<string>, word: string)
    requires words != []
    ensures Join(words + [word]) == Join(words) + [' '] + word
    ensures Length(Join(words + [word])) == Length(Join(words)) + 1 + Length(word)
  {
    var current := Join(words);
    JoinConcat(words, [word]);
    LengthConcat(current + [' '], word);
    LengthConcat(current, [' ']);
    assert [' '][..0] == "";
    assert Length([' ']) == 1;
  }

  // A word added at the end leaves a line cut before as it is.
  lemma {:induction false} StaysLine(words: seq<string>, word: string, s: Span, budget: int)
    requires s.to < |words| && Fits(words, s, budget) && IsFull(words, s, budget)
    ensures Fits(words + [word], s, budget) && IsFull(words + [word], s, budget)
    ensures Line(words + [word], s) == Line(words, s)
  {
    var all := words + [word];
    assert all[s.from..s.to] == words[s.from..s.to];
    assert all[s.from..s.to + 1] == words[s.from..s.to + 1];
  }

  lemma {:induction false} StaysLaid(words: seq<string>, word: string, budget: int, lines: seq<string>,
                                     spans: seq<Span>)
    requires Laid(words, budget, lines, spans) && forall k :: 0 <= k < |spans| ==> spans[k].to < |words|
    ensures Laid(words + [word], budget, lines, spans)
  {
    var all := words + [word];
    forall k | 0 <= k < |spans|
      ensures Fits(all, spans[k], budget) && IsFull(all, spans[k], budget) && lines[k] == Line(all, spans[k])
    {
      StaysLine(words, word, spans[k], budget);
    }
  }

  lemma {:induction false} SpansUpToLast(spans: seq<Span>, k: nat)
    requires Chained(spans) && k < |spans|
    ensures spans[k].from < spans[k].to <= Last(spans)
  {
    if k < |spans| - 1 {
      SpansUpToLast(spans[..|spans| - 1], k);
    }
  }

  lemma {:induction false} LaidMore(words: seq<string>, budget: int, lines: seq<string>, spans: seq<Span>, last: Span)
    requires Laid(words, budget, lines, spans) && last.from == Last(spans)
    requires Fits(words, last, budget) && IsFull(words, last, budget)
    ensures Laid(words, budget, lines + [Line(words, last)], spans + [last])
  {
    assert (spans + [last])[..|spans|] == spans;
  }

  lemma {:induction false} PackedMore(words: seq<string>, word: string, budget: int, lines: seq<string>,
                                      current: string, spans: seq<Span>)
    requires Packed(words, budget, lines, current, spans) && words != [] && Length(current) + 1 + Length(word) <= budget
    ensures Packed(words + [word], budget, lines, current + [' '] + word, spans)
  {
    forall k | 0 <= k < |spans| ensures spans[k].to < |words| {
      SpansUpToLast(spans, k);
    }
    StaysLaid(words, word, budget, lines, spans);
    assert (words + [word])[Last(spans)..] == words[Last(spans)..] + [word];
    LengthMore(words[Last(spans)..], word);
  }

  // The line being filled, once the next word does not fit it.
  lemma {:induction false} FilledLine(words: seq<string>, word: string, budget: int, last: Span)
    requires last.from < last.to == |words|
    requires |words| - last.from > 1 ==> Length(Join(words[last.from..])) <= budget
    requires Length(Join(words[last.from..])) + 1 + Length(word) > budget
    ensures var all := words + [word];
            && Line(all, last) == Join(words[last.from..]) && Fits(all, last, budget) && IsFull(all, last, budget)
            && Join(all[last.to..]) == word
  {
    var all := words + [word];
    assert all[last.from..last.to] == words[last.from..] && all[last.to..] == [word];
    assert all[last.from..last.to + 1] == words[last.from..] + [word];
    LengthMore(words[last.from..], word);
  }

  lemma {:induction false} PackedNext(words: seq<string>, word: string, budget: int, lines: seq<string>,
                                      current: string, spans: seq<Span>)
    requires Packed(words, budget, lines, current, spans) && words != [] && Length(current) + 1 + Length(word) > budget
    ensures Packed(words + [word], budget, lines + [current], word, spans + [Span(Last(spans), |words|)])
  {
    var last := Span(Last(spans), |words|);
    forall k | 0 <= k < |spans| ensures spans[k].to < |words| {
      SpansUpToLast(spans, k);
    }
    StaysLaid(words, word, budget, lines, spans);
    FilledLine(words, word, budget, last);
    LaidMore(words + [word], budget, lines, spans, last);
  }

  lemma {:induction false} PackIsPacked(words: seq<string>, budget: int) returns (spans: seq<Span>)
    requires NonEmpty(words)
    ensures Packed(words, budget, Pack(words, budget).0, Pack(words, budget).1, spans)
  {
    if words == [] {
      return [];
    }
    var init, word := words[..|words| - 1], words[|words| - 1];
    assert words == init + [word];
    spans := PackIsPacked(init, budget);
    if init == [] {
      assert words == [word] && spans == [];
      return;
    }
    var (lines, current) := Pack(init, budget);
    if Length(current) + 1 + Length(word) <= budget {
      PackedMore(init, word, budget, lines, current, spans);
    } else {
      PackedNext(init, word, budget, lines, current, spans);
      spans := spans + [Span(Last(spans), |init|)];
    }
  }

  // The lines lay out all the words: each fits where it can, and is full.
  lemma {:induction false} LinesLaid(words: seq<string>, budget: int) returns (spans: seq<Span>)
    requires NonEmpty(words)
    ensures Laid(words, budget, Lines(words, budget), spans) && Last(spans) == |words|
  {
    spans := PackIsPacked(words, budget);
    var (lines, current) := Pack(words, budget);
    if words != [] {
      var last := Span(Last(spans), |words|);
      assert words[last.from..last.to] == words[last.from..];
      LaidMore(words, budget, lines, spans, last);
      spans := spans + [last];
    }
  }

  // ---------- fewest lines ----------

  // What the first k words take, each with the space after it.
  function Taken(words: seq<string>, k: nat): nat
    requires k <= |words|
  {
    if k == 0 then 0 else Taken(words, k - 1) + Length(words[k - 1]) + 1
  }

  lemma {:induction false} JoinTakes(words: seq<string>, a: nat, b: nat)
    requires a < b <= |words|
    ensures Length(Join(words[a..b])) + 1 + Taken(words, a) == Taken(words, b)
    decreases b
  {
    if b == a + 1 {
      assert words[a..b] == [words[a]];
    } else {
      JoinTakes(words, a, b - 1);
      assert words[a..b] == words[a..b - 1] + [words[b - 1]];
      LengthMore(words[a..b - 1], words[b - 1]);
    }
  }

  lemma {:induction false} TakenGrows(words: seq<string>, a: nat, b: nat)
    requires a <= b <= |words|
    ensures Taken(words, a) <= Taken(words, b)
    decreases b
  {
    if a < b {
      TakenGrows(words, a, b - 1);
    }
  }

  // A line within another takes no more.
  lemma {:induction false} WithinTakes(words: seq<string>, inner: Span, outer: Span)
    requires outer.from <= inner.from < inner.to <= outer.to <= |words|
    ensures Length(Line(words, inner)) <= Length(Line(words, outer))
  {
    JoinTakes(words, inner.from, inner.to);
    JoinTakes(words, outer.from, outer.to);
    TakenGrows(words, inner.to, outer.to);
    TakenGrows(words, outer.from, inner.from);
  }

  lemma {:induction false} FullGoesAsFar(words: seq<string>, budget: int, mine: Span, theirs: Span)
    requires mine.from < mine.to && IsFull(words, mine, budget)
    requires Fits(words, theirs, budget) && theirs.from <= mine.from
    ensures theirs.to <= mine.to
  {
    if mine.to < theirs.to {
      WithinTakes(words, Span(mine.from, mine.to + 1), theirs);
    }
  }

  // As many greedy lines get at least as far as any other that fit.
  lemma {:induction false} StaysAhead(words: seq<string>, budget: int, spans: seq<Span>, other: seq<Span>)
    requires Chained(spans) && Chained(other) && |spans| == |other|
    requires forall k :: 0 <= k < |spans| ==> IsFull(words, spans[k], budget)
    requires forall k :: 0 <= k < |other| ==> Fits(words, other[k], budget)
    ensures Last(other) <= Last(spans)
  {
    if other != [] {
      var n := |other| - 1;
      assert forall k :: 0 <= k < n ==> spans[..n][k] == spans[k] && other[..n][k] == other[k];
      StaysAhead(words, budget, spans[..n], other[..n]);
      FullGoesAsFar(words, budget, spans[n], other[n]);
    }
  }

  lemma {:induction false} ChainedFront(spans: seq<Span>, m: nat)
    requires Chained(spans) && m < |spans|
    ensures Chained(spans[..m]) && spans[m].from == Last(spans[..m])
  {
    if m < |spans| - 1 {
      ChainedFront(spans[..|spans| - 1], m);
      assert spans[..|spans| - 1][..m] == spans[..m];
    }
  }

  // No lines of the same words that fit are fewer than the greedy ones.
  lemma {:induction false} GreedyIsFewest(words: seq<string>, budget: int, other: seq<Span>)
    requires NonEmpty(words) && Chained(other) && Last(other) == |words|
    requires forall k :: 0 <= k < |other| ==> Fits(words, other[k], budget)
    ensures |Lines(words, budget)| <= |other|
  {
    var spans := LinesLaid(words, budget);
    var m := |other|;
    if m < |spans| {
      ChainedFront(spans, m);
      SpansUpToLast(spans, m);
      StaysAhead(words, budget, spans[..m], other);
    }
  }

  // ---------- read back ----------

  // `replace(/\s+/g, ' ')`.
  function Collapse(s: string): string {
    if s == "" then ""
    else if !IsSpace(s[0]) then [s[0]] + Collapse(s[1..])
    else if |s| > 1 && IsSpace(s[1]) then Collapse(s[1..])
    else [' '] + Collapse(s[1..])
  }

  function Trim(s: string): string {
    if s == "" then ""
    else if IsSpace(s[0]) then Trim(s[1..])
    else if IsSpace(s[|s| - 1]) then Trim(s[..|s| - 1])
    else s
  }

  // The text of a `oneLine` template.
  function ReadBack(raw: string): string {
    Trim(Collapse(Cook(raw)))
  }

  lemma {:induction false} CookBlank(blank: string, rest: string)
    requires Blank(blank)
    ensures Cook(blank + rest) == blank + Cook(rest)
    ensures IsWhole(blank + rest) == IsWhole(rest)
  {
    if blank == "" {
      assert blank + rest == rest;
    } else {
      CookBlank(blank[1..], rest);
      var tail := blank[1..] + rest;
      assert blank + rest == [blank[0]] + tail;
      assert (blank + rest)[1..] == tail;
      assert blank + Cook(rest) == [blank[0]] + (blank[1..] + Cook(rest));
    }
  }

  // ---------- the words of any text ----------

  // What stands between the white space.
  function WordsOf(s: string): (r: seq<string>)
    ensures AreWords(r)
    ensures s != "" && !IsSpace(s[0]) ==> r != []
  {
    if s == "" then []
    else if IsSpace(s[0]) then WordsOf(s[1..])
    else if |s| == 1 || IsSpace(s[1]) then [[s[0]]] + WordsOf(s[1..])
    else
      var rest := WordsOf(s[1..]);
      [[s[0]] + rest[0]] + rest[1..]
  }

  lemma {:induction false} BlankHasNoWords(blank: string, s: string)
    requires Blank(blank)
    ensures WordsOf(blank + s) == WordsOf(s)
  {
    if blank == "" {
      assert blank + s == s;
    } else {
      BlankHasNoWords(blank[1..], s);
      assert (blank + s)[1..] == blank[1..] + s;
    }
  }

  // Two texts that white space keeps apart have their words one after the other.
  lemma {:induction false} WordsApart(a: string, b: string)
    requires b == "" || IsSpace(b[0])
    ensures WordsOf(a + b) == WordsOf(a) + WordsOf(b)
  {
    if a == "" {
      assert a + b == b;
    } else {
      var first, tail := a[0], a[1..];
      WordsApart(tail, b);
      assert (a + b)[1..] == tail + b && (a + b)[0] == first;
      assert tail != "" ==> (a + b)[1] == tail[0];
      InOneRow([[first]], WordsOf(tail), WordsOf(b));
    }
  }

  lemma {:induction false} WordsAcross(a: string, blank: string, b: string)
    requires Blank(blank) && blank != ""
    ensures WordsOf(a + (blank + b)) == WordsOf(a) + WordsOf(b)
  {
    WordsApart(a, blank + b);
    BlankHasNoWords(blank, b);
  }

  lemma {:induction false} WordsBefore(a: string, blank: string)
    requires Blank(blank) && blank != ""
    ensures WordsOf(a + blank) == WordsOf(a)
  {
    WordsAcross(a, blank, "");
    assert blank + "" == blank;
  }

  // The words of texts one after the other.
  function AllWords(texts: seq<string>): seq<string> {
    if texts == [] then [] else AllWords(texts[..|texts| - 1]) + WordsOf(texts[|texts| - 1])
  }

  lemma {:induction false} AllWordsSnoc(texts: seq<string>, last: string)
    ensures AllWords(texts + [last]) == AllWords(texts) + WordsOf(last)
  {
    assert (texts + [last])[..|texts|] == texts;
  }

  lemma {:induction false} WordsOfJoin(texts: seq<string>)
    ensures WordsOf(Join(texts)) == AllWords(texts)
  {
    if |texts| > 1 {
      var init, last := texts[..|texts| - 1], texts[|texts| - 1];
      WordsOfJoin(init);
      WordsAcross(Join(init), [' '], last);
      InOneRow(Join(init), [' '], last);
    } else if |texts| == 1 {
      assert texts[..0] == [];
    }
  }

  lemma {:induction false} WordIsItself(word: string)
    requires IsWord(word)
    ensures WordsOf(word) == [word]
  {
    assert [word[0]] + word[1..] == word;
    if |word| > 1 {
      WordIsItself(word[1..]);
    } else {
      assert word[1..] == "" && [word[0]] == word;
    }
  }

  lemma {:induction false} AllWordsOfWords(words: seq<string>)
    requires AreWords(words)
    ensures AllWords(words) == words
  {
    if words != [] {
      var init, last := words[..|words| - 1], words[|words| - 1];
      AllWordsOfWords(init);
      WordIsItself(last);
      assert init + [last] == words;
    }
  }

  // ---------- collapsing and trimming leave the words ----------

  lemma {:induction false} JoinHead(c: char, words: seq<string>)
    requires words != []
    ensures Join([[c] + words[0]] + words[1..]) == [c] + Join(words)
  {
    var more := [[c] + words[0]] + words[1..];
    if |words| == 1 {
      assert more == [[c] + words[0]];
    } else {
      JoinFront(words);
      JoinFront(more);
      assert more[1..] == words[1..];
    }
  }

  function Edge(c: char): string {
    if IsSpace(c) then [' '] else ""
  }

  // Collapsed: the words one space apart, with a space where the text begins or ends in white space.
  ghost predicate Collapses(s: string)
    requires s != ""
  {
    var words, lead, trail := WordsOf(s), Edge(s[0]), Edge(s[|s| - 1]);
    if words == [] then Collapse(s) == lead == trail == [' '] else Collapse(s) == lead + Join(words) + trail
  }

  lemma {:induction false} SpaceCollapses(s: string)
    requires |s| > 1 && IsSpace(s[0]) && Collapses(s[1..])
    ensures Collapses(s)
  {
    var rest, trail := s[1..], Edge(s[|s| - 1]);
    assert rest[|rest| - 1] == s[|s| - 1];
    if !IsSpace(rest[0]) {
      assert [' '] + ("" + Join(WordsOf(rest)) + trail) == [' '] + Join(WordsOf(rest)) + trail;
    }
  }

  lemma {:induction false} LetterCollapses(s: string)
    requires |s| > 1 && !IsSpace(s[0]) && !IsSpace(s[1]) && Collapses(s[1..])
    ensures Collapses(s)
  {
    var rest, trail := s[1..], Edge(s[|s| - 1]);
    assert rest[|rest| - 1] == s[|s| - 1];
    JoinHead(s[0], WordsOf(rest));
    assert [s[0]] + ("" + Join(WordsOf(rest)) + trail) == "" + ([s[0]] + Join(WordsOf(rest))) + trail;
  }

  lemma {:induction false} WordCollapses(s: string)
    requires |s| > 1 && !IsSpace(s[0]) && IsSpace(s[1]) && Collapses(s[1..])
    ensures Collapses(s)
  {
    var rest, first, trail := s[1..], [s[0]], Edge(s[|s| - 1]);
    var words := [first] + WordsOf(rest);
    assert rest[|rest| - 1] == s[|s| - 1];
    assert "" + Join(words) == Join(words);
    if WordsOf(rest) == [] {
      assert words == [first];
    } else {
      assert words[1..] == WordsOf(rest);
      JoinFront(words);
      InOneRow(first, [' '] + Join(WordsOf(rest)), trail);
    }
  }

  lemma {:induction false} CharCollapses(s: string)
    requires |s| == 1
    ensures Collapses(s)
  {
    assert s[1..] == "" && [s[0]] == s;
  }

  lemma {:induction false} CollapseIs(s: string)
    requires s != ""
    ensures Collapses(s)
  {
    if |s| == 1 {
      CharCollapses(s);
    } else {
      CollapseIs(s[1..]);
      if IsSpace(s[0]) {
        SpaceCollapses(s);
      } else if IsSpace(s[1]) {
        WordCollapses(s);
      } else {
        LetterCollapses(s);
      }
    }
  }

  lemma {:induction false} JoinedEnds(words: seq<string>)
    requires AreWords(words) && words != []
    ensures var text := Join(words); text != "" && !IsSpace(text[0]) && !IsSpace(text[|text| - 1])
  {
    if |words| > 1 {
      JoinedEnds(words[..|words| - 1]);
    }
  }

  lemma {:induction false} TrimAfter(text: string, trail: string)
    requires text != "" && !IsSpace(text[0]) && !IsSpace(text[|text| - 1]) && (trail == "" || trail == [' '])
    ensures Trim(text + trail) == text
  {
    if trail == "" {
      assert text + trail == text;
    } else {
      assert (text + trail)[..|text|] == text && Trim(text) == text;
    }
  }

  lemma {:induction false} TrimAround(lead: string, text: string, trail: string)
    requires text != "" && !IsSpace(text[0]) && !IsSpace(text[|text| - 1])
    requires (lead == "" || lead == [' ']) && (trail == "" || trail == [' '])
    ensures Trim(lead + text + trail) == text
  {
    TrimAfter(text, trail);
    InOneRow(lead, text, trail);
    if lead == [' '] {
      assert (lead + (text + trail))[1..] == text + trail;
    } else {
      assert lead + (text + trail) == text + trail;
    }
  }

  // Collapsed and trimmed, any text is its words one space apart.
  lemma {:induction false} TrimmedIsWords(s: string)
    ensures Trim(Collapse(s)) == Join(WordsOf(s))
  {
    if s != "" {
      CollapseIs(s);
      if WordsOf(s) == [] {
        assert [' '][1..] == "";
      } else {
        JoinedEnds(WordsOf(s));
        TrimAround(Edge(s[0]), Join(WordsOf(s)), Edge(s[|s| - 1]));
      }
    }
  }

  // ---------- what the wrapped text reads back as ----------

  // The lines with the line break and the indentation before each.
  function Indented(lines: seq<string>, indent: string): string {
    if lines == [] then "" else Indented(lines[..|lines| - 1], indent) + (['\n'] + indent + lines[|lines| - 1])
  }

  lemma {:induction false} BodyIndented(lines: seq<string>, indent: string)
    requires lines != []
    ensures ['\n'] + Body(lines, indent) == Indented(lines, indent)
  {
    var init, last := lines[..|lines| - 1], lines[|lines| - 1];
    if init == [] {
      assert Body(lines, indent) == indent + last;
      assert Indented(lines, indent) == ['\n'] + indent + last;
    } else {
      BodyIndented(init, indent);
      assert ['\n'] + (Body(init, indent) + ['\n'] + indent + last)
          == (['\n'] + Body(init, indent)) + (['\n'] + indent + last);
    }
  }

  lemma {:induction false} EscapedWordsSlice(words: seq<string>, a: nat, b: nat)
    requires a <= b <= |words|
    ensures EscapedWords(words)[a..b] == EscapedWords(words[a..b])
  {
  }

  lemma {:induction false} LineCooks(text: string, blank: string, rest: string)
    requires Blank(blank)
    ensures Cook(blank + EscapedOnce(text) + rest) == blank + (text + Cook(rest))
  {
    CookUndoesEscape(text, rest);
    CookBlank(blank, EscapedOnce(text) + rest);
    InOneRow(blank, EscapedOnce(text), rest);
  }

  lemma {:induction false} SplitJoins(s: string)
    ensures Join(SplitSpaces(s)) == s
    ensures forall k :: 0 <= k < |SplitSpaces(s)| ==> NoSpace(SplitSpaces(s)[k])
  {
    if s != "" {
      var rest := SplitSpaces(s[1..]);
      SplitJoins(s[1..]);
      if s[0] == ' ' {
        var all := [""] + rest;
        JoinFront(all);
        assert all[1..] == rest && s == "" + ([' '] + s[1..]);
      } else {
        JoinHead(s[0], rest);
        assert [s[0]] + s[1..] == s;
      }
    }
  }

  // The escaped text splits into its escaped parts.
  lemma {:induction false} SplitEscaped(text: string)
    ensures SplitSpaces(Escaped(text)) == EscapedWords(SplitSpaces(text))
  {
    var parts := SplitSpaces(text);
    SplitJoins(text);
    OnePass(text);
    EscapedJoin(parts);
    forall k | 0 <= k < |parts| ensures NoSpace(EscapedWords(parts)[k]) {
      EscapedNoSpace(parts[k]);
    }
    SplitJoined(EscapedWords(parts));
  }

  lemma {:induction false} EscapedNoSpace(s: string)
    requires NoSpace(s)
    ensures NoSpace(EscapedOnce(s))
  {
    if s != "" {
      EscapedNoSpace(s[1..]);
    }
  }

  function WrappedInner(text: string, baseIndent: string, indentUnit: string, budget: int): string {
    Inner(Lines(SplitSpaces(Escaped(text)), budget), baseIndent, indentUnit)
  }

  lemma {:induction false} EscapedSnoc(texts: seq<string>, last: string)
    ensures EscapedWords(texts + [last]) == EscapedWords(texts) + [EscapedOnce(last)]
  {
    assert (texts + [last])[..|texts|] == texts;
  }

  lemma {:induction false} EscapedNothing(s: string)
    ensures EscapedOnce(s) == "" <==> s == ""
  {
  }

  lemma {:induction false} EscapedAcross(a: string, b: string)
    ensures EscapedOnce(a + [' '] + b) == EscapedOnce(a) + [' '] + EscapedOnce(b)
  {
    EscapedOnceConcat(a, [' '] + b);
    assert ([' '] + b)[1..] == b;
    InOneRow(a, [' '], b);
    InOneRow(EscapedOnce(a), [' '], EscapedOnce(b));
  }

  // The lines packed so far are escaped ones, and what they and the line being filled hold are the words gone through.
  ghost predicate PackedAs(parts: seq<string>, budget: int, plain: seq<string>, current: string) {
    && Pack(EscapedWords(parts), budget) == (EscapedWords(plain), EscapedOnce(current))
    && AllWords(plain) + WordsOf(current) == AllWords(parts)
  }

  lemma {:induction false} PacksWords(parts: seq<string>, budget: int) returns (plain: seq<string>, current: string)
    ensures PackedAs(parts, budget, plain, current)
  {
    if parts == [] {
      return [], "";
    }
    var init, last := parts[..|parts| - 1], parts[|parts| - 1];
    plain, current := PacksWords(init, budget);
    assert parts == init + [last];
    EscapedSnoc(init, last);
    assert EscapedWords(parts)[..|init|] == EscapedWords(init);
    plain, current := PacksOne(init, last, budget, plain, current);
  }

  // The words of one part more, on the line it joins or on the one it begins.
  lemma {:induction false} WordsOnLine(plain: seq<string>, current: string, last: string, all: seq<string>)
    requires AllWords(plain) + WordsOf(current) == all
    ensures AllWords(plain) + WordsOf(current + [' '] + last) == all + WordsOf(last)
  {
    WordsAcross(current, [' '], last);
    InOneRow(current, [' '], last);
    InOneRow(AllWords(plain), WordsOf(current), WordsOf(last));
  }

  lemma {:induction false} WordsOnNext(plain: seq<string>, current: string, last: string, all: seq<string>)
    requires AllWords(plain) + WordsOf(current) == all
    ensures AllWords(plain + [current]) + WordsOf(last) == all + WordsOf(last)
  {
    AllWordsSnoc(plain, current);
  }

  lemma {:induction false} OneMorePart(init: seq<string>, last: string, budget: int, plain: seq<string>,
                                       current: string)
    requires PackedAs(init, budget, plain, current)
    ensures AllWords(init + [last]) == AllWords(init) + WordsOf(last)
    ensures var lines, line, word := EscapedWords(plain), EscapedOnce(current), EscapedOnce(last);
            Pack(EscapedWords(init + [last]), budget)
            == if current == "" then (lines, word)
               else if Length(line) + 1 + Length(word) <= budget then (lines, line + [' '] + word)
               else (lines + [line], word)
  {
    EscapedSnoc(init, last);
    AllWordsSnoc(init, last);
    EscapedNothing(current);
    PackSnoc(EscapedWords(init), EscapedOnce(last), budget);
  }

  lemma {:induction false} PacksOne(init: seq<string>, last: string, budget: int, plain: seq<string>, current: string)
    returns (plain': seq<string>, current': string)
    requires PackedAs(init, budget, plain, current)
    ensures PackedAs(init + [last], budget, plain', current')
  {
    OneMorePart(init, last, budget, plain, current);
    if current == "" {
      plain', current' := plain, last;
    } else if Length(EscapedOnce(current)) + 1 + Length(EscapedOnce(last)) <= budget {
      plain', current' := plain, current + [' '] + last;
      EscapedAcross(current, last);
      WordsOnLine(plain, current, last, AllWords(init));
    } else {
      plain', current' := plain + [current], last;
      EscapedSnoc(plain, current);
      WordsOnNext(plain, current, last, AllWords(init));
    }
  }

  lemma {:induction false} PackSnoc(words: seq<string>, word: string, budget: int)
    ensures var (lines, current) := Pack(words, budget);
            Pack(words + [word], budget)
            == if current == "" then (lines, word)
               else if Length(current) + 1 + Length(word) <= budget then (lines, current + [' '] + word)
               else (lines + [current], word)
  {
    assert (words + [word])[..|words|] == words;
  }

  // Whatever the text, its lines are escaped ones that hold its words.
  lemma {:induction false} LinesHoldWords(text: string, budget: int) returns (plain: seq<string>)
    ensures Lines(SplitSpaces(Escaped(text)), budget) == EscapedWords(plain) && AllWords(plain) == WordsOf(text)
  {
    var parts := SplitSpaces(text);
    var current;
    plain, current := PacksWords(parts, budget);
    SplitEscaped(text);
    SplitJoins(text);
    WordsOfJoin(parts);
    EscapedNothing(current);
    if current != "" {
      EscapedSnoc(plain, current);
      AllWordsSnoc(plain, current);
      plain := plain + [current];
    }
  }

  lemma {:induction false} IndentedCooks(lines: seq<string>, indent: string, rest: string)
    requires Blank(indent)
    ensures Cook(Indented(EscapedWords(lines), indent) + rest) == Indented(lines, indent) + Cook(rest)
  {
    if lines == [] {
      assert Indented(EscapedWords(lines), indent) + rest == rest;
      assert Indented(lines, indent) + Cook(rest) == Cook(rest);
    } else {
      var init, last, blank := lines[..|lines| - 1], lines[|lines| - 1], ['\n'] + indent;
      var line := blank + EscapedOnce(last);
      assert EscapedWords(lines)[..|init|] == EscapedWords(init);
      IndentedCooks(init, indent, line + rest);
      LineCooks(last, blank, rest);
      InOneRow(Indented(EscapedWords(init), indent), line, rest);
      InOneRow(blank, last, Cook(rest));
      InOneRow(Indented(init, indent), blank + last, Cook(rest));
    }
  }

  lemma {:induction false} IndentedHolds(lines: seq<string>, indent: string)
    requires Blank(indent)
    ensures WordsOf(Indented(lines, indent)) == AllWords(lines)
  {
    if lines != [] {
      var init, last, blank := lines[..|lines| - 1], lines[|lines| - 1], ['\n'] + indent;
      IndentedHolds(init, indent);
      WordsAcross(Indented(init, indent), blank, last);
    }
  }

  // The template's text is its lines under their indentation.
  lemma {:induction false} InnerIndented(lines: seq<string>, baseIndent: string, indentUnit: string)
    ensures lines != [] ==>
              Inner(lines, baseIndent, indentUnit) == Indented(lines, baseIndent + indentUnit) + (['\n'] + baseIndent)
    ensures lines == [] ==> Inner(lines, baseIndent, indentUnit) == ['\n'] + (['\n'] + baseIndent)
  {
    if lines != [] {
      BodyIndented(lines, baseIndent + indentUnit);
    }
  }

  lemma {:induction false} InnerReads(plain: seq<string>, baseIndent: string, indentUnit: string)
    requires Blank(baseIndent) && Blank(indentUnit)
    ensures WordsOf(Cook(Inner(EscapedWords(plain), baseIndent, indentUnit))) == AllWords(plain)
  {
    var indent, end := baseIndent + indentUnit, ['\n'] + baseIndent;
    InnerIndented(EscapedWords(plain), baseIndent, indentUnit);
    CookBlank(end, "");
    assert end + "" == end;
    if plain == [] {
      CookBlank(['\n'], end);
      BlankHasNoWords(['\n'] + end, "");
      assert ['\n'] + end + "" == ['\n'] + end;
    } else {
      IndentedCooks(plain, indent, end);
      IndentedHolds(plain, indent);
      WordsBefore(Indented(plain, indent), end);
    }
  }

  /**
   Whatever text is wrapped, and however its words were packed: reading it back gives the text collapsed and trimmed,
   which is the text itself exactly if it is single-spaced.
   */
  lemma {:induction false} WrapRoundTrips(text: string, baseIndent: string, indentUnit: string, budget: int)
    requires Blank(baseIndent) && Blank(indentUnit)
    ensures ReadBack(WrappedInner(text, baseIndent, indentUnit, budget)) == Trim(Collapse(text))
    ensures ReadBack(WrappedInner(text, baseIndent, indentUnit, budget)) == text <==> SingleSpaced(text)
  {
    var plain := LinesHoldWords(text, budget);
    InnerReads(plain, baseIndent, indentUnit);
    TrimmedIsWords(Cook(WrappedInner(text, baseIndent, indentUnit, budget)));
    TrimmedIsWords(text);
    SingleSpacedIsItself(text);
  }

  lemma {:induction false} SingleSpacedIsItself(text: string)
    ensures Join(WordsOf(text)) == text <==> SingleSpaced(text)
  {
    if words :| AreWords(words) && text == Join(words) {
      WordsOfJoin(words);
      AllWordsOfWords(words);
    }
  }

  // Wrapping what was read back settles: it wraps alike from then on, and from the start for a single-spaced text.
  lemma {:induction false} WrapIsStable(text: string, baseIndent: string, indentUnit: string, budget: int)
    requires Blank(baseIndent) && Blank(indentUnit)
    ensures var inner := WrappedInner(text, baseIndent, indentUnit, budget);
            var again := WrappedInner(ReadBack(inner), baseIndent, indentUnit, budget);
            WrappedInner(ReadBack(again), baseIndent, indentUnit, budget) == again
            && (SingleSpaced(text) ==> again == inner)
  {
    WrapRoundTrips(text, baseIndent, indentUnit, budget);
    TrimmedIsWords(text);
    var read := Join(WordsOf(text));
    assert SingleSpaced(read);
    WrapRoundTrips(read, baseIndent, indentUnit, budget);
  }

  // ---------- one template, within the cap ----------

  lemma {:induction false} LineIsWhole(text: string, blank: string, rest: string, line: string)
    requires Blank(blank) && blank != "" && IsWhole(rest) && (rest == "" || rest[0] != '{')
    requires line == blank + (EscapedOnce(text) + rest)
    ensures IsWhole(line) && line[0] != '{'
  {
    EscapedIsWhole(text, rest);
    CookBlank(blank, EscapedOnce(text) + rest);
  }

  lemma {:induction false} LinesAreWhole(plain: seq<string>, indent: string, rest: string)
    requires Blank(indent) && IsWhole(rest) && (rest == "" || rest[0] != '{')
    ensures IsWhole(Indented(EscapedWords(plain), indent) + rest)
  {
    if plain == [] {
      assert Indented(EscapedWords(plain), indent) + rest == rest;
    } else {
      var init, last, blank := plain[..|plain| - 1], plain[|plain| - 1], ['\n'] + indent;
      var line := blank + (EscapedOnce(last) + rest);
      LineIsWhole(last, blank, rest, line);
      LinesAreWhole(init, indent, line);
      assert EscapedWords(plain)[..|init|] == EscapedWords(init);
      InOneRow(blank, EscapedOnce(last), rest);
      InOneRow(Indented(EscapedWords(init), indent), blank + EscapedOnce(last), rest);
    }
  }

  // What a text is wrapped into is one template: nothing of the text ends it or opens a substitution.
  lemma {:induction false} WrappedIsWhole(text: string, baseIndent: string, indentUnit: string, budget: int)
    requires Blank(baseIndent) && Blank(indentUnit)
    ensures IsWhole(WrappedInner(text, baseIndent, indentUnit, budget))
  {
    var plain := LinesHoldWords(text, budget);
    var indent, end := baseIndent + indentUnit, ['\n'] + baseIndent;
    CookBlank(end, "");
    assert end + "" == end;
    InnerIndented(EscapedWords(plain), baseIndent, indentUnit);
    if plain == [] {
      CookBlank(['\n'], end);
    } else {
      LinesAreWhole(plain, indent, end);
    }
  }

  lemma {:induction false} ColumnsConcat(a: string, b: string, tabWidth: nat)
    ensures Columns(a + b, tabWidth) == Columns(a, tabWidth) + Columns(b, tabWidth)
  {
    if b == "" {
      assert a + b == a;
    } else {
      ColumnsConcat(a, b[..|b| - 1], tabWidth);
      assert (a + b)[..|a + b| - 1] == a + b[..|b| - 1];
    }
  }

  // Without tabs, a text takes no more columns than its length.
  lemma {:induction false} ColumnsWithin(s: string, tabWidth: nat)
    requires forall k :: 0 <= k < |s| ==> s[k] != '\t'
    ensures Columns(s, tabWidth) <= Length(s)
  {
    if s != "" {
      ColumnsWithin(s[..|s| - 1], tabWidth);
    }
  }

  lemma {:induction false} JoinedNoTab(words: seq<string>)
    requires AreWords(words)
    ensures forall k :: 0 <= k < |Join(words)| ==> Join(words)[k] != '\t'
  {
    if |words| > 1 {
      JoinedNoTab(words[..|words| - 1]);
    }
  }

  lemma {:induction false} EscapedNoTab(s: string)
    requires forall k :: 0 <= k < |s| ==> s[k] != '\t'
    ensures forall k :: 0 <= k < |EscapedOnce(s)| ==> EscapedOnce(s)[k] != '\t'
  {
    if s != "" {
      EscapedNoTab(s[1..]);
    }
  }

  lemma {:induction false} EscapedColumns(words: seq<string>, indent: string, tabWidth: nat)
    requires AreWords(words)
    ensures var line := EscapedOnce(Join(words));
            Columns(indent + line, tabWidth) <= Columns(indent, tabWidth) + Length(line)
  {
    JoinedNoTab(words);
    EscapedNoTab(Join(words));
    ColumnsWithin(EscapedOnce(Join(words)), tabWidth);
    ColumnsConcat(indent, EscapedOnce(Join(words)), tabWidth);
  }

  // A line is one word, or within the budget.
  lemma {:induction false} LinesFitTheBudget(words: seq<string>, budget: int, k: nat) returns (s: Span)
    requires AreWords(words) && words != [] && k < |Lines(EscapedWords(words), budget)|
    ensures s.from < s.to <= |words| && Lines(EscapedWords(words), budget)[k] == EscapedOnce(Join(words[s.from..s.to]))
    ensures s.to - s.from > 1 ==> Length(Lines(EscapedWords(words), budget)[k]) <= budget
  {
    var escaped := EscapedWords(words);
    forall j | 0 <= j < |words| ensures escaped[j] != "" {
      EscapedNothing(words[j]);
    }
    var spans := LinesLaid(escaped, budget);
    s := spans[k];
    assert Fits(escaped, s, budget);
    EscapedWordsSlice(words, s.from, s.to);
    EscapedJoin(words[s.from..s.to]);
  }

  // Every line is within the column cap, its indentation included, or it is one word.
  lemma {:induction false} LinesFitTheCap(words: seq<string>, baseIndent: string, indentUnit: string, code: nat,
                                          tabWidth: nat, budget: int, k: nat)
    requires AreWords(words) && words != []
    requires budget == code - Columns(baseIndent + indentUnit, tabWidth) && k < |Lines(EscapedWords(words), budget)|
    ensures var line := Lines(EscapedWords(words), budget)[k];
            Columns(baseIndent + indentUnit + line, tabWidth) <= code
            || exists word :: word in words && line == EscapedOnce(word)
  {
    var s := LinesFitTheBudget(words, budget, k);
    if s.to - s.from > 1 {
      EscapedColumns(words[s.from..s.to], baseIndent + indentUnit, tabWidth);
    } else {
      assert words[s.from..s.to] == [words[s.from]];
      assert words[s.from] in words;
    }
  }
}
