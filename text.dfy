/** The pieces of Python's string builtins that the three scripts rely on:
    str.isspace(), str.strip(), str.split() with and without a separator,
    str.join(), str.replace(), the `in` test on substrings and int() on text. */
module Text {

  datatype Option<+T> = None | Some(value: T)

  /** The characters for which Python's str.isspace() holds; str.strip(),
      str.split() without argument and int() all use this set. */
  predicate IsSpace(c: char) {
    c == ' ' || ('\t' <= c <= '\r') || ('\U{1C}' <= c <= '\U{1F}')
    || c == '\U{85}' || c == '\U{A0}' || c == '\U{1680}'
    || ('\U{2000}' <= c <= '\U{200A}') || c == '\U{2028}' || c == '\U{2029}'
    || c == '\U{202F}' || c == '\U{205F}' || c == '\U{3000}'
  }

  predicate NoSpace(s: string) {
    forall k :: 0 <= k < |s| ==> !IsSpace(s[k])
  }

  // ---------------------------------------------------------------- strip

  function StripLeft(s: string): (r: string)
    ensures |r| <= |s|
    ensures r == [] || !IsSpace(r[0])
  {
    if s != [] && IsSpace(s[0]) then StripLeft(s[1..]) else s
  }

  function StripRight(s: string): (r: string)
    ensures |r| <= |s| && (r != [] ==> r[0] == s[0])
    ensures r == [] || !IsSpace(r[|r| - 1])
  {
    if s != [] && IsSpace(s[|s| - 1]) then StripRight(s[..|s| - 1]) else s
  }

  /** str.strip() without argument. */
  function Strip(s: string): (r: string)
    ensures r == [] || (!IsSpace(r[0]) && !IsSpace(r[|r| - 1]))
  {
    StripRight(StripLeft(s))
  }

  lemma StripUnchanged(s: string)
    requires s == [] || (!IsSpace(s[0]) && !IsSpace(s[|s| - 1]))
    ensures Strip(s) == s
  {
  }

  // ------------------------------------------------- split on whitespace

  /** The longest prefix of `s` without whitespace. */
  function Word(s: string): (w: string)
    ensures |w| <= |s| && w == s[..|w|] && NoSpace(w)
    ensures |w| < |s| ==> IsSpace(s[|w|])
  {
    if s == [] || IsSpace(s[0]) then [] else [s[0]] + Word(s[1..])
  }

  /** str.split() without argument: the maximal runs of non-whitespace. */
  function Words(s: string): (ws: seq<string>)
    decreases |s|
  {
    var t := StripLeft(s);
    if t == [] then []
    else
      var w := Word(t);
      [w] + Words(t[|w|..])
  }

  predicate IsWord(w: string) {
    w != [] && NoSpace(w)
  }

  lemma {:induction false} WordsAreWords(s: string)
    ensures forall i :: 0 <= i < |Words(s)| ==> IsWord(Words(s)[i])
    decreases |s|
  {
    var t := StripLeft(s);
    if t != [] {
      var w := Word(t);
      WordsAreWords(t[|w|..]);
    }
  }

  lemma ConsSplit<T>(s: seq<T>)
    requires s != []
    ensures [s[0]] + s[1..] == s
  {
  }

  // ----------------------------------------------------------------- join

  /** sep.join(parts). */
  function Join(sep: string, parts: seq<string>): (r: string)
  {
    if |parts| == 0 then ""
    else if |parts| == 1 then parts[0]
    else parts[0] + sep + Join(sep, parts[1..])
  }

  lemma {:induction false} JoinAppend(sep: string, parts: seq<string>, last: string)
    requires parts != []
    ensures Join(sep, parts + [last]) == Join(sep, parts) + sep + last
  {
    if |parts| == 1 {
      assert parts + [last] == [parts[0], last];
    } else {
      assert (parts + [last])[1..] == parts[1..] + [last];
      JoinAppend(sep, parts[1..], last);
    }
  }

  lemma {:induction false} JoinStartsWith(sep: string, parts: seq<string>)
    requires parts != []
    ensures |parts[0]| <= |Join(sep, parts)| && Join(sep, parts)[..|parts[0]|] == parts[0]
  {
  }

  /** A character absent from the separator and from every part is absent from the join. */
  lemma {:induction false} JoinAvoids(sep: string, parts: seq<string>, c: char)
    requires c !in sep
    requires forall i :: 0 <= i < |parts| ==> c !in parts[i]
    ensures c !in Join(sep, parts)
  {
    if |parts| > 1 {
      JoinAvoids(sep, parts[1..], c);
    }
  }

  // ---------------------------------------------------- collapse of runs

  /** " ".join(s.strip().split()): the whitespace normalisation the scrapers
      apply to every extracted field. */
  function Collapse(s: string): string {
    Join(" ", Words(Strip(s)))
  }

  /** No leading or trailing whitespace, and every whitespace character is a
      single space between two non-whitespace characters. */
  predicate IsCollapsed(r: string) {
    forall i :: 0 <= i < |r| && IsSpace(r[i]) ==>
      r[i] == ' ' && 0 < i < |r| - 1 && !IsSpace(r[i - 1]) && !IsSpace(r[i + 1])
  }

  lemma {:induction false} JoinWordsCollapsed(ws: seq<string>)
    requires forall i :: 0 <= i < |ws| ==> IsWord(ws[i])
    ensures IsCollapsed(Join(" ", ws))
    ensures Join(" ", ws) == [] || (!IsSpace(Join(" ", ws)[0]) && !IsSpace(Join(" ", ws)[|Join(" ", ws)| - 1]))
  {
    if |ws| > 1 {
      JoinWordsCollapsed(ws[1..]);
      var rest := Join(" ", ws[1..]);
      var r := ws[0] + " " + rest;
      assert Join(" ", ws) == r;
      forall i | 0 <= i < |r| && IsSpace(r[i])
        ensures r[i] == ' ' && 0 < i < |r| - 1 && !IsSpace(r[i - 1]) && !IsSpace(r[i + 1])
      {
        if i < |ws[0]| {
        } else if i == |ws[0]| {
          assert r[i - 1] == ws[0][i - 1];
          assert r[i + 1] == rest[0];
        } else {
          assert r[i] == rest[i - |ws[0]| - 1];
          if i == |ws[0]| + 1 {
            assert false;
          }
          assert r[i - 1] == rest[i - |ws[0]| - 2];
        }
      }
    }
  }

  lemma CollapseIsCollapsed(s: string)
    ensures IsCollapsed(Collapse(s))
  {
    WordsAreWords(Strip(s));
    JoinWordsCollapsed(Words(Strip(s)));
  }

  lemma WordsCons(w: string, t: string)
    requires IsWord(w)
    requires t == [] || IsSpace(t[0])
    ensures Words(w + t) == [w] + Words(t)
  {
    var r := w + t;
    assert r[0] == w[0];
    assert StripLeft(r) == r;
    WordOfWord(w, t);
    assert r[|w|..] == t;
  }

  lemma WordsSpace(c: char, t: string)
    requires IsSpace(c)
    ensures Words([c] + t) == Words(t)
  {
    assert ([c] + t)[1..] == t;
    assert StripLeft([c] + t) == StripLeft(t);
  }

  lemma WordsStep(w: string, rest: string)
    requires IsWord(w)
    ensures Words(w + " " + rest) == [w] + Words(rest)
  {
    var tail := [' '] + rest;
    assert w + " " + rest == w + tail;
    WordsCons(w, tail);
    WordsSpace(' ', rest);
  }

  lemma {:induction false} WordsOfJoin(ws: seq<string>)
    requires forall i :: 0 <= i < |ws| ==> IsWord(ws[i])
    ensures Words(Join(" ", ws)) == ws
  {
    if |ws| == 1 {
      WordsCons(ws[0], []);
      assert ws[0] + [] == ws[0];
    } else if |ws| > 1 {
      ConsSplit(ws);
      WordsStep(ws[0], Join(" ", ws[1..]));
      WordsOfJoin(ws[1..]);
    }
  }

  lemma {:induction false} WordOfWord(w: string, t: string)
    requires NoSpace(w)
    requires t == [] || IsSpace(t[0])
    ensures Word(w + t) == w
  {
    if w != [] {
      assert (w + t)[1..] == w[1..] + t;
      WordOfWord(w[1..], t);
    } else {
      assert w + t == t;
    }
  }

  lemma CollapseOfJoin(ws: seq<string>)
    requires forall i :: 0 <= i < |ws| ==> IsWord(ws[i])
    ensures Collapse(Join(" ", ws)) == Join(" ", ws)
  {
    JoinWordsCollapsed(ws);
    StripUnchanged(Join(" ", ws));
    WordsOfJoin(ws);
  }

  /** Collapsing is idempotent: a collapsed field collapses to itself. */
  lemma CollapseIdempotent(s: string)
    ensures Collapse(Collapse(s)) == Collapse(s)
  {
    WordsAreWords(Strip(s));
    CollapseOfJoin(Words(Strip(s)));
  }

  // --------------------------------------------------- split on one char

  /** s.split(c) for a one-character separator. */
  function SplitOn(s: string, c: char): (parts: seq<string>)
    ensures |parts| >= 1
    ensures c in s ==> |parts| >= 2
    ensures forall i :: 0 <= i < |parts| ==> c !in parts[i]
  {
    if s == [] then [""]
    else
      var rest := SplitOn(s[1..], c);
      if s[0] == c then [""] + rest
      else [[s[0]] + rest[0]] + rest[1..]
  }

  lemma {:induction false} SplitOnNone(s: string, c: char)
    requires c !in s
    ensures SplitOn(s, c) == [s]
  {
    if s != [] {
      SplitOnNone(s[1..], c);
      assert [s[0]] + s[1..] == s;
    }
  }

  lemma {:induction false} SplitOnFirst(a: string, c: char, b: string)
    requires c !in a
    ensures SplitOn(a + [c] + b, c) == [a] + SplitOn(b, c)
  {
    if a == [] {
      assert a + [c] + b == [c] + b;
      assert ([c] + b)[1..] == b;
    } else {
      assert (a + [c] + b)[1..] == a[1..] + [c] + b;
      SplitOnFirst(a[1..], c, b);
      assert [a[0]] + a[1..] == a;
    }
  }

  /** Splitting a join on its one-character separator gives the parts back,
      when no part contains that character. */
  lemma {:induction false} SplitJoin(parts: seq<string>, c: char)
    requires parts != []
    requires forall i :: 0 <= i < |parts| ==> c !in parts[i]
    ensures SplitOn(Join([c], parts), c) == parts
  {
    if |parts| == 1 {
      SplitOnNone(parts[0], c);
    } else {
      SplitJoin(parts[1..], c);
      SplitOnFirst(parts[0], c, Join([c], parts[1..]));
    }
  }

  // -------------------------------------------------- substring, replace

  /** The substring test `pat in s`. */
  predicate HasInfix(s: string, pat: string)
    decreases |s|
  {
    |pat| <= |s| && (s[..|pat|] == pat || HasInfix(s[1..], pat))
  }

  lemma {:induction false} HasInfixSuffix(a: string, pat: string)
    ensures HasInfix(a + pat, pat)
    decreases |a|
  {
    if a == [] {
      assert (a + pat)[..|pat|] == pat;
    } else {
      assert (a + pat)[1..] == a[1..] + pat;
      HasInfixSuffix(a[1..], pat);
    }
  }

  /** s.replace(pat, rep) for a non-empty pattern: leftmost, non-overlapping. */
  function Replace(s: string, pat: string, rep: string): string
    requires pat != []
    decreases |s|
  {
    if |s| < |pat| then s
    else if s[..|pat|] == pat then rep + Replace(s[|pat|..], pat, rep)
    else [s[0]] + Replace(s[1..], pat, rep)
  }

  /** A prefix holding no occurrence of the pattern's first character is copied. */
  lemma {:induction false} ReplaceSkips(a: string, b: string, pat: string, rep: string)
    requires pat != []
    requires pat[0] !in a
    ensures Replace(a + b, pat, rep) == a + Replace(b, pat, rep)
    decreases |a|
  {
    if a != [] {
      assert (a + b)[0] == a[0];
      assert (a + b)[1..] == a[1..] + b;
      ReplaceSkips(a[1..], b, pat, rep);
    } else {
      assert a + b == b;
    }
  }

  // --------------------------------------------------------------- digits

  predicate IsDigit(c: char) { '0' <= c <= '9' }

  predicate AllDigits(s: string) {
    forall k :: 0 <= k < |s| ==> IsDigit(s[k])
  }

  /** The value of a string of ASCII digits, most significant first. */
  function DigitsValue(s: string): (n: nat)
    requires AllDigits(s)
  {
    if s == [] then 0 else 10 * DigitsValue(s[..|s| - 1]) + (s[|s| - 1] as int - '0' as int)
  }

  /** The decimal representation of `n`, as Python's str() writes it. */
  function NatToString(n: nat): (s: string)
    ensures s != [] && AllDigits(s)
  {
    if n < 10 then [('0' as int + n) as char]
    else NatToString(n / 10) + [('0' as int + n % 10) as char]
  }

  function IntToString(n: int): (s: string)
    ensures s != []
  {
    if n < 0 then "-" + NatToString(-n) else NatToString(n)
  }

  lemma {:induction false} NatToStringValue(n: nat)
    ensures DigitsValue(NatToString(n)) == n
  {
    if n >= 10 {
      NatToStringValue(n / 10);
      var s := NatToString(n);
      assert s[..|s| - 1] == NatToString(n / 10);
    }
  }

  /** int(s) restricted to optional whitespace, an optional sign and one or
      more ASCII digits; None stands for the ValueError int() raises. */
  function ParseInt(s: string): (r: Option<int>)
    ensures r.Some? ==> Strip(s) != []
  {
    var t := Strip(s);
    if t == [] then None
    else
      var digits := if t[0] == '-' || t[0] == '+' then t[1..] else t;
      if digits == [] || !AllDigits(digits) then None
      else
        var v: int := DigitsValue(digits);
        Some(if t[0] == '-' then -v else v)
  }

  lemma NatToStringParses(m: nat)
    ensures ParseInt(NatToString(m)) == Some(m)
  {
    var s := NatToString(m);
    NatToStringValue(m);
    StripUnchanged(s);
  }

  lemma NegativeParses(m: int)
    requires m > 0
    ensures ParseInt("-" + NatToString(m)) == Some(-m)
  {
    var s := "-" + NatToString(m);
    NatToStringValue(m);
    assert s[1..] == NatToString(m);
    assert s[|s| - 1] == NatToString(m)[|s| - 2];
    StripUnchanged(s);
  }

  /** int() reads back what str() writes. */
  lemma IntToStringParses(n: int)
    ensures ParseInt(IntToString(n)) == Some(n)
  {
    if n < 0 {
      NegativeParses(-n);
    } else {
      NatToStringParses(n);
    }
  }
}
