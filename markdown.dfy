/** escape_markdown_v2 of cerca_treni.py: the characters that the
    "MarkdownV2 style" of the Telegram Bot API formatting options lists as
    reserved each get a backslash in front; everything else, the backslash
    itself included, is copied. */
module MarkdownV2 {
  import opened Text

  /** The eighteen reserved characters _ * [ ] ( ) ~ ` > # + - = | { } . ! */
  predicate IsReserved(c: char) {
    c == '_' || c == '*' || c == '[' || c == ']' || c == '(' || c == ')' || c == '~' || c == '`' || c == '>'
    || c == '#' || c == '+' || c == '-' || c == '=' || c == '|' || c == '{' || c == '}' || c == '.' || c == '!'
  }

  function CountReserved(s: string): (n: nat)
    ensures n <= |s|
  {
    if s == [] then 0 else (if IsReserved(s[0]) then 1 else 0) + CountReserved(s[1..])
  }

  function EscapeChar(c: char): string {
    if IsReserved(c) then ['\\', c] else [c]
  }

  /** The escaped text: one backslash is added per reserved character, and
      the output never starts with a reserved character. */
  function Escape(s: string): (r: string)
    ensures |r| == |s| + CountReserved(s)
    ensures r != [] ==> !IsReserved(r[0])
  {
    if s == [] then [] else EscapeChar(s[0]) + Escape(s[1..])
  }

  /** Every reserved character of the escaped text has a backslash just before it. */
  lemma {:induction false} EscapedReservedPreceded(s: string)
    ensures forall i :: 0 <= i < |Escape(s)| && IsReserved(Escape(s)[i]) ==> 0 < i && Escape(s)[i - 1] == '\\'
  {
    if s != [] {
      EscapedReservedPreceded(s[1..]);
      var e, rest := EscapeChar(s[0]), Escape(s[1..]);
      assert Escape(s) == e + rest;
      forall i | 0 <= i < |e + rest| && IsReserved((e + rest)[i])
        ensures 0 < i && (e + rest)[i - 1] == '\\'
      {
        if i >= |e| {
          assert (e + rest)[i] == rest[i - |e|];
          if i - |e| > 0 {
            assert (e + rest)[i - 1] == rest[i - |e| - 1];
          }
        }
      }
    }
  }

  /** Escaping works character by character, left to right. */
  lemma {:induction false} EscapeAppend(a: string, b: string)
    ensures Escape(a + b) == Escape(a) + Escape(b)
  {
    if a != [] {
      assert (a + b)[1..] == a[1..] + b;
      EscapeAppend(a[1..], b);
    } else {
      assert a + b == b;
    }
  }

  /** Text with no reserved character is sent unchanged. */
  lemma {:induction false} EscapePlain(s: string)
    requires forall k :: 0 <= k < |s| ==> !IsReserved(s[k])
    ensures Escape(s) == s
  {
    if s != [] {
      EscapePlain(s[1..]);
      ConsSplit(s);
    }
  }

  /** Deletes each backslash that stands just before a reserved character. */
  function Unescape(t: string): string
    decreases |t|
  {
    if t == [] then []
    else if |t| >= 2 && t[0] == '\\' && IsReserved(t[1]) then [t[1]] + Unescape(t[2..])
    else [t[0]] + Unescape(t[1..])
  }

  /** Round trip: deleting the added backslashes gives the input back, also
      when the input holds backslashes of its own. */
  lemma {:induction false} UnescapeEscape(s: string)
    ensures Unescape(Escape(s)) == s
  {
    if s != [] {
      var rest := Escape(s[1..]);
      var t := Escape(s);
      assert t == EscapeChar(s[0]) + rest;
      UnescapeEscape(s[1..]);
      if IsReserved(s[0]) {
        assert t[2..] == rest;
      } else {
        assert t[1..] == rest;
      }
      ConsSplit(s);
    }
  }
}
