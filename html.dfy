/**
 * Python's `html.escape(s, quote=True)` as a map on characters, with the decoder that
 * reads its output back.
 */
module Html {
  import opened Text

  /** The five characters `html.escape` rewrites. */
  predicate IsMarkup(c: char) {
    c == '&' || c == '<' || c == '>' || c == '"' || c == '\''
  }

  /** What `html.escape` writes for one character. */
  function EscapeChar(c: char): (r: string)
    ensures |r| >= 1
    ensures IsMarkup(c) ==> r[0] == '&'
    ensures !IsMarkup(c) ==> r == [c]
    ensures '<' !in r && '>' !in r && '"' !in r && '\'' !in r
  {
    if c == '&' then "&amp;"
    else if c == '<' then "&lt;"
    else if c == '>' then "&gt;"
    else if c == '"' then "&quot;"
    else if c == '\'' then "&#x27;"
    else [c]
  }

  /** `html.escape(s)`: no angle bracket or quote survives, text without markup characters is
      unchanged, and only the empty text escapes to the empty text. */
  function Escape(s: string): (r: string)
    ensures '<' !in r && '>' !in r && '"' !in r && '\'' !in r
    ensures (forall i :: 0 <= i < |s| ==> !IsMarkup(s[i])) ==> r == s
    ensures r == [] <==> s == []
  {
    EscapeKeepsOut(s);
    FlatMap(s, EscapeChar)
  }

  lemma {:induction false} EscapeKeepsOut(s: string)
    ensures var r := FlatMap(s, EscapeChar); '<' !in r && '>' !in r && '"' !in r && '\'' !in r
  {
    FlatMapKeepsOut(s, EscapeChar, '<');
    FlatMapKeepsOut(s, EscapeChar, '>');
    FlatMapKeepsOut(s, EscapeChar, '"');
    FlatMapKeepsOut(s, EscapeChar, '\'');
  }

  /** The character that the escaped text `s` starts with, and how many characters of `s`
      encode it: one of the five entities `Escape` writes, or a plain character. */
  function DecodeToken(s: string): (r: (char, nat))
    requires s != []
    ensures 1 <= r.1 <= |s|
  {
    if StartsWith(s, "&amp;") then ('&', 5)
    else if StartsWith(s, "&lt;") then ('<', 4)
    else if StartsWith(s, "&gt;") then ('>', 4)
    else if StartsWith(s, "&quot;") then ('"', 6)
    else if StartsWith(s, "&#x27;") then ('\'', 6)
    else (s[0], 1)
  }

  /** Reads escaped text back, one token at a time. */
  function Unescape(s: string): (r: string)
    decreases |s|
  {
    if s == [] then []
    else
      var (c, n) := DecodeToken(s);
      [c] + Unescape(s[n..])
  }

  /** The token `EscapeChar(c)` decodes to `c`, whatever follows it. */
  lemma {:induction false} DecodeEscapeChar(c: char, rest: string)
    ensures DecodeToken(EscapeChar(c) + rest) == (c, |EscapeChar(c)|)
  {
    var t := EscapeChar(c) + rest;
    assert t[..|EscapeChar(c)|] == EscapeChar(c);
    if !IsMarkup(c) {
      assert EscapeChar(c) == [c];
      assert t[0] == c && c != '&';
      assert !StartsWith(t, "&amp;") && !StartsWith(t, "&lt;") && !StartsWith(t, "&gt;");
      assert !StartsWith(t, "&quot;") && !StartsWith(t, "&#x27;");
    } else if c == '&' {
      assert StartsWith(t, "&amp;");
    } else if c == '<' {
      assert t[1] == 'l' && StartsWith(t, "&lt;");
    } else if c == '>' {
      assert t[1] == 'g' && StartsWith(t, "&gt;");
    } else if c == '"' {
      assert t[1] == 'q' && StartsWith(t, "&quot;");
    } else {
      assert t[1] == '#' && StartsWith(t, "&#x27;");
    }
  }

  /** Escaping loses nothing: `Unescape` recovers the original text. */
  lemma {:induction false} UnescapeEscape(s: string)
    ensures Unescape(Escape(s)) == s
  {
    if s != [] {
      var rest := Escape(s[1..]);
      assert Escape(s) == EscapeChar(s[0]) + rest;
      DecodeEscapeChar(s[0], rest);
      assert (EscapeChar(s[0]) + rest)[|EscapeChar(s[0])|..] == rest;
      UnescapeEscape(s[1..]);
    }
  }

  /** Escaping is injective: two texts with the same escaped form are the same text. */
  lemma {:induction false} EscapeInjective(s: string, t: string)
    requires Escape(s) == Escape(t)
    ensures s == t
  {
    UnescapeEscape(s);
    UnescapeEscape(t);
  }
}
