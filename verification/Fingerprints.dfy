/**
 The collection of a rendered fingerprint (api/src/scoped-cache/fingerprint.ts:36-54, 132-187): escaped going in,
 found again before the `:&` every body opens with.
 */
module Fingerprints {
  import opened Options

  predicate Reserved(c: char) {
    c in {'\\', ',', '&', '|', '*', '?', '[', ']'}
  }

  function Escape(token: string): string {
    if token == "" then "" else (if Reserved(token[0]) then ['\\', token[0]] else [token[0]]) + Escape(token[1..])
  }

  // `\` followed by any character stands for it; one at the end stands for itself.
  function Unescape(token: string): string {
    if token == "" then ""
    else if token[0] == '\\' && |token| > 1 then [token[1]] + Unescape(token[2..])
    else [token[0]] + Unescape(token[1..])
  }

  function IndexOf(s: string, sub: string): (at: Option<nat>)
    ensures at.Some? ==> at.value <= |s|
    decreases |s|
  {
    if sub <= s then Some(0)
    else if s == "" then None
    else
      var rest := IndexOf(s[1..], sub);
      if rest.None? then None else Some(rest.value + 1)
  }

  // The collection a serialized fingerprint names.
  function CollectionOf(serialized: string): string {
    var bodied := IndexOf(serialized, ":&");
    var colon := if bodied.Some? then bodied else IndexOf(serialized, ":");
    Unescape(if colon.None? then serialized else serialized[..colon.value])
  }

  lemma {:induction false} UnescapeUndoesEscape(token: string)
    ensures Unescape(Escape(token)) == token
  {
    if token != "" {
      var first, rest := token[0], token[1..];
      UnescapeUndoesEscape(rest);
      if Reserved(first) {
        assert Escape(token)[2..] == Escape(rest);
      } else {
        assert Escape(token)[1..] == Escape(rest);
      }
    }
  }

  lemma {:induction false} IndexOfSkips(first: char, tail: string, sub: string)
    requires |sub| == 2 && (first != sub[0] || tail == "" || tail[0] != sub[1])
    ensures IndexOf([first] + tail, sub)
         == if IndexOf(tail, sub).Some? then Some(IndexOf(tail, sub).value + 1) else None
  {
    var s := [first] + tail;
    assert s[1..] == tail;
    if |s| >= 2 {
      assert s[..2][0] == first && s[..2][1] == tail[0];
    }
  }

  // An escaped token holds no `:&`: its `&` follow a backslash.
  lemma {:induction false} BodyOpensAfter(token: string, opening: string, body: string)
    requires |opening| == 2 && opening[0] == ':' && opening[1] == '&' && opening <= body
    ensures IndexOf(Escape(token) + body, opening) == Some(|Escape(token)|)
  {
    if token == "" {
      assert Escape(token) + body == body;
    } else {
      var first, rest := token[0], token[1..];
      BodyOpensAfter(rest, opening, body);
      StartsBeforeBody(rest, body);
      var tail := Escape(rest) + body;
      if Reserved(first) {
        IndexOfSkips(first, tail, opening);
        IndexOfSkips('\\', [first] + tail, opening);
        assert ['\\', first] + Escape(rest) + body == ['\\'] + ([first] + tail);
      } else {
        IndexOfSkips(first, tail, opening);
        assert [first] + Escape(rest) + body == [first] + tail;
      }
    }
  }

  // What an escaped token or the body after it starts with is no bare `&`.
  lemma {:induction false} StartsBeforeBody(token: string, body: string)
    requires body != "" && body[0] == ':'
    ensures Escape(token) + body != "" && (Escape(token) + body)[0] != '&'
  {
  }

  lemma {:induction false} PlainSkips(first: char, tail: string, opening: string)
    requires opening != "" && first != opening[0]
    ensures IndexOf([first] + tail, opening)
         == if IndexOf(tail, opening).Some? then Some(IndexOf(tail, opening).value + 1) else None
  {
    assert ([first] + tail)[1..] == tail && ([first] + tail)[0] == first;
  }

  lemma {:induction false} EscapedIsPlain(token: string, opening: string, rest: string)
    requires opening != "" && opening[0] == ':' && ':' !in token
    ensures IndexOf(Escape(token) + rest, opening)
         == if IndexOf(rest, opening).Some? then Some(|Escape(token)| + IndexOf(rest, opening).value) else None
  {
    if token == "" {
      assert Escape(token) + rest == rest;
    } else {
      var first, escaped := token[0], Escape(token[1..]);
      var tail := escaped + rest;
      EscapedIsPlain(token[1..], opening, rest);
      PlainSkips(first, tail, opening);
      if Reserved(first) {
        PlainSkips('\\', [first] + tail, opening);
        assert ['\\', first] + escaped + rest == ['\\'] + ([first] + tail);
      } else {
        assert [first] + escaped + rest == [first] + tail;
      }
    }
  }

  // One written without a body names what comes before its first colon, or all of it.
  lemma {:induction false} PlainCollectionReads(collection: string, rest: string)
    requires ':' !in collection && IndexOf(":" + rest, ":&").None?
    ensures CollectionOf(Escape(collection) + (":" + rest)) == collection
    ensures CollectionOf(Escape(collection)) == collection
  {
    UnescapeUndoesEscape(collection);
    EscapedIsPlain(collection, ":&", ":" + rest);
    EscapedIsPlain(collection, ":", ":" + rest);
    assert (Escape(collection) + (":" + rest))[..|Escape(collection)|] == Escape(collection);
    EscapedIsPlain(collection, ":&", "");
    EscapedIsPlain(collection, ":", "");
    assert Escape(collection) + "" == Escape(collection);
  }

  // A rendered fingerprint names its collection, whatever characters that holds.
  lemma {:induction false} CollectionRoundTrips(collection: string, body: string)
    ensures CollectionOf(Escape(collection) + (":&" + body)) == collection
  {
    BodyOpensAfter(collection, ":&", ":&" + body);
    UnescapeUndoesEscape(collection);
    assert (Escape(collection) + (":&" + body))[..|Escape(collection)|] == Escape(collection);
  }
}
