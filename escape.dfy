/**
 * `escapeHtml` of the analytics page (js/analytics.js:185-191): four global
 * replacements, `&` first, so that the entities introduced by the later passes
 * are not escaped again. The four references are the named character
 * references `&amp;`, `&lt;`, `&gt;` and `&quot;` of the HTML Living Standard
 * (section 13.5, named character references).
 */
module Escape {

  /** `s.replace(/c/g, rep)` for a pattern of one character. */
  function ReplaceAll(s: string, c: char, rep: string): string
    decreases |s|
  {
    if s == [] then [] else (if s[0] == c then rep else [s[0]]) + ReplaceAll(s[1..], c, rep)
  }

  /** `escapeHtml(str)` as written: the four passes in the source's order. */
  function EscapeHtml(s: string): string {
    ReplaceAll(ReplaceAll(ReplaceAll(ReplaceAll(s, '&', "&amp;"), '<', "&lt;"), '>', "&gt;"), '"', "&quot;")
  }

  /** What a single character becomes. */
  function EscapeChar(c: char): string {
    if c == '&' then "&amp;"
    else if c == '<' then "&lt;"
    else if c == '>' then "&gt;"
    else if c == '"' then "&quot;"
    else [c]
  }

  /** Reference definition: every character escaped on its own, in one pass. */
  function EscapeEach(s: string): string
    decreases |s|
  {
    if s == [] then [] else EscapeChar(s[0]) + EscapeEach(s[1..])
  }

  predicate IsSpecial(c: char) {
    c == '&' || c == '<' || c == '>' || c == '"'
  }

  predicate StartsWith(s: string, prefix: string) {
    |prefix| <= |s| && s[..|prefix|] == prefix
  }

  /** `s` begins with one of the four references. */
  predicate StartsEntity(s: string) {
    StartsWith(s, "&amp;") || StartsWith(s, "&lt;") || StartsWith(s, "&gt;") || StartsWith(s, "&quot;")
  }

  /** Text that is safe to put between tags or inside a double-quoted attribute. */
  predicate HtmlSafe(s: string) {
    forall i :: 0 <= i < |s| ==>
      s[i] != '<' && s[i] != '>' && s[i] != '"' && (s[i] == '&' ==> StartsEntity(s[i..]))
  }

  /** Decoding the four references, left to right: the inverse of escaping. */
  function Unescape(s: string): string
    decreases |s|
  {
    if s == [] then []
    else if StartsWith(s, "&amp;") then "&" + Unescape(s[5..])
    else if StartsWith(s, "&lt;") then "<" + Unescape(s[4..])
    else if StartsWith(s, "&gt;") then ">" + Unescape(s[4..])
    else if StartsWith(s, "&quot;") then "\"" + Unescape(s[6..])
    else [s[0]] + Unescape(s[1..])
  }

  lemma {:induction false} ReplaceAllAppend(a: string, b: string, c: char, rep: string)
    ensures ReplaceAll(a + b, c, rep) == ReplaceAll(a, c, rep) + ReplaceAll(b, c, rep)
    decreases |a|
  {
    if a == [] {
      assert a + b == b;
    } else {
      assert (a + b)[0] == a[0];
      assert (a + b)[1..] == a[1..] + b;
      ReplaceAllAppend(a[1..], b, c, rep);
    }
  }

  lemma {:induction false} ReplaceAllAbsent(s: string, c: char, rep: string)
    requires c !in s
    ensures ReplaceAll(s, c, rep) == s
    decreases |s|
  {
    if s != [] {
      ReplaceAllAbsent(s[1..], c, rep);
      assert [s[0]] + s[1..] == s;
    }
  }

  lemma EscapeHtmlAppend(a: string, b: string)
    ensures EscapeHtml(a + b) == EscapeHtml(a) + EscapeHtml(b)
  {
    var a1, b1 := ReplaceAll(a, '&', "&amp;"), ReplaceAll(b, '&', "&amp;");
    ReplaceAllAppend(a, b, '&', "&amp;");
    var a2, b2 := ReplaceAll(a1, '<', "&lt;"), ReplaceAll(b1, '<', "&lt;");
    ReplaceAllAppend(a1, b1, '<', "&lt;");
    var a3, b3 := ReplaceAll(a2, '>', "&gt;"), ReplaceAll(b2, '>', "&gt;");
    ReplaceAllAppend(a2, b2, '>', "&gt;");
    ReplaceAllAppend(a3, b3, '"', "&quot;");
  }

  lemma ReplaceAllOne(x: char, c: char, rep: string)
    ensures ReplaceAll([x], c, rep) == if x == c then rep else [x]
  {
    assert [x][1..] == [];
  }

  /** The passes after the first leave alone text that has none of their characters. */
  lemma LaterPassesKeep(s: string)
    requires '<' !in s && '>' !in s && '"' !in s
    ensures ReplaceAll(ReplaceAll(ReplaceAll(s, '<', "&lt;"), '>', "&gt;"), '"', "&quot;") == s
  {
    ReplaceAllAbsent(s, '<', "&lt;");
    ReplaceAllAbsent(s, '>', "&gt;");
    ReplaceAllAbsent(s, '"', "&quot;");
  }

  lemma EscapeHtmlAmp(c: char)
    requires c == '&'
    ensures EscapeHtml([c]) == "&amp;"
  {
    ReplaceAllOne(c, '&', "&amp;");
    LaterPassesKeep("&amp;");
  }

  lemma EscapeHtmlLt(c: char)
    requires c == '<'
    ensures EscapeHtml([c]) == "&lt;"
  {
    ReplaceAllOne(c, '&', "&amp;");
    ReplaceAllOne(c, '<', "&lt;");
    ReplaceAllAbsent("&lt;", '>', "&gt;");
    ReplaceAllAbsent("&lt;", '"', "&quot;");
  }

  lemma EscapeHtmlGt(c: char)
    requires c == '>'
    ensures EscapeHtml([c]) == "&gt;"
  {
    ReplaceAllOne(c, '&', "&amp;");
    ReplaceAllOne(c, '<', "&lt;");
    ReplaceAllOne(c, '>', "&gt;");
    ReplaceAllAbsent("&gt;", '"', "&quot;");
  }

  lemma EscapeHtmlOther(c: char)
    requires c != '&' && c != '<' && c != '>'
    ensures EscapeHtml([c]) == if c == '"' then "&quot;" else [c]
  {
    ReplaceAllOne(c, '&', "&amp;");
    ReplaceAllOne(c, '<', "&lt;");
    ReplaceAllOne(c, '>', "&gt;");
    ReplaceAllOne(c, '"', "&quot;");
  }

  lemma EscapeHtmlChar(c: char)
    ensures EscapeHtml([c]) == EscapeChar(c)
  {
    if c == '&' {
      EscapeHtmlAmp(c);
    } else if c == '<' {
      EscapeHtmlLt(c);
    } else if c == '>' {
      EscapeHtmlGt(c);
    } else {
      EscapeHtmlOther(c);
    }
  }

  /**
   * The four passes, `&` first, do what escaping each character once does: no
   * reference produced by a later pass is escaped again.
   */
  lemma {:induction false} EscapeHtmlIsPerChar(s: string)
    ensures EscapeHtml(s) == EscapeEach(s)
    decreases |s|
  {
    if s == [] {
      assert EscapeHtml(s) == [];
    } else {
      assert s == [s[0]] + s[1..];
      EscapeHtmlAppend([s[0]], s[1..]);
      EscapeHtmlChar(s[0]);
      EscapeHtmlIsPerChar(s[1..]);
    }
  }

  lemma HtmlSafeAppend(a: string, b: string)
    requires HtmlSafe(a) && HtmlSafe(b)
    ensures HtmlSafe(a + b)
  {
    var t := a + b;
    forall i | 0 <= i < |t| && t[i] == '&'
      ensures StartsEntity(t[i..])
    {
      if i < |a| {
        assert StartsEntity(a[i..]);
        assert a[i..] + b == t[i..];
        var p := if StartsWith(a[i..], "&amp;") then "&amp;"
          else if StartsWith(a[i..], "&lt;") then "&lt;"
          else if StartsWith(a[i..], "&gt;") then "&gt;" else "&quot;";
        assert StartsWith(a[i..], p);
        assert t[i..][..|p|] == a[i..][..|p|];
      } else {
        assert t[i..] == b[i - |a|..];
      }
    }
  }

  lemma EscapeCharSafe(c: char)
    ensures HtmlSafe(EscapeChar(c))
  {
    var e := EscapeChar(c);
    if c == '&' {
      assert e[0..] == e && StartsWith(e, "&amp;");
    } else if c == '<' {
      assert e[0..] == e && StartsWith(e, "&lt;");
    } else if c == '>' {
      assert e[0..] == e && StartsWith(e, "&gt;");
    } else if c == '"' {
      assert e[0..] == e && StartsWith(e, "&quot;");
    }
  }

  lemma {:induction false} EscapeEachSafe(s: string)
    ensures HtmlSafe(EscapeEach(s))
    decreases |s|
  {
    if s != [] {
      EscapeCharSafe(s[0]);
      EscapeEachSafe(s[1..]);
      HtmlSafeAppend(EscapeChar(s[0]), EscapeEach(s[1..]));
    }
  }

  /**
   * The output of `escapeHtml` holds no raw `<`, `>` or `"`, and every `&` in it
   * begins one of the four references.
   */
  lemma EscapeHtmlSafe(s: string)
    ensures HtmlSafe(EscapeHtml(s))
  {
    EscapeHtmlIsPerChar(s);
    EscapeEachSafe(s);
  }

  /** Text with none of the four characters is returned unchanged. */
  lemma {:induction false} EscapeHtmlPlain(s: string)
    requires forall i :: 0 <= i < |s| ==> !IsSpecial(s[i])
    ensures EscapeHtml(s) == s
    decreases |s|
  {
    EscapeHtmlIsPerChar(s);
    EscapeEachPlain(s);
  }

  lemma {:induction false} EscapeEachPlain(s: string)
    requires forall i :: 0 <= i < |s| ==> !IsSpecial(s[i])
    ensures EscapeEach(s) == s
    decreases |s|
  {
    if s != [] {
      EscapeEachPlain(s[1..]);
      assert [s[0]] + s[1..] == s;
    }
  }

  lemma UnescapeChar(c: char, rest: string)
    ensures Unescape(EscapeChar(c) + rest) == [c] + Unescape(rest)
  {
    var t := EscapeChar(c) + rest;
    if c == '&' {
      assert StartsWith(t, "&amp;") && t[5..] == rest;
    } else if c == '<' {
      assert !StartsWith(t, "&amp;") by { assert t[1] == 'l'; }
      assert StartsWith(t, "&lt;") && t[4..] == rest;
    } else if c == '>' {
      assert !StartsWith(t, "&amp;") && !StartsWith(t, "&lt;") by { assert t[1] == 'g'; }
      assert StartsWith(t, "&gt;") && t[4..] == rest;
    } else if c == '"' {
      assert !StartsWith(t, "&amp;") && !StartsWith(t, "&lt;") && !StartsWith(t, "&gt;") by { assert t[1] == 'q'; }
      assert StartsWith(t, "&quot;") && t[6..] == rest;
    } else {
      assert t[0] == c && t[1..] == rest;
      assert !StartsEntity(t);
    }
  }

  /** Decoding the escaped text gives the original text back. */
  lemma {:induction false} UnescapeEscapeHtml(s: string)
    ensures Unescape(EscapeHtml(s)) == s
  {
    EscapeHtmlIsPerChar(s);
    UnescapeEscapeEach(s);
  }

  lemma {:induction false} UnescapeEscapeEach(s: string)
    ensures Unescape(EscapeEach(s)) == s
    decreases |s|
  {
    if s != [] {
      UnescapeChar(s[0], EscapeEach(s[1..]));
      UnescapeEscapeEach(s[1..]);
      assert [s[0]] + s[1..] == s;
    }
  }
}
